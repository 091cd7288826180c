/** The static state of the installer: one cached block of an unreliable device, and the log
    of replaced bytes. */
module BlockCaches {
  import opened Multiples
  import opened DiskModel
  import opened CacheModel

  class BlockCache {
    /** The medium, what its accesses will do, and how many there were. */
    var device: seq<byte>
    const script: Script
    var tick: nat

    const blockSize: nat
    ghost const blocks: nat

    const cache: array<byte>
    var dirty: bool
    var cachedBlock: int

    const uninstallData: array<Undo>
    const uninstallDataRev: array<Undo>
    var uninstallDataCount: nat
    var uninstalling: bool

    ghost function Model(): Disk
      reads this, cache
    {
      Disk(device, blockSize, blocks, cache[..], dirty, cachedBlock)
    }

    ghost function State(): Machine
      reads this, cache
    {
      Machine(Model(), tick)
    }

    ghost predicate Valid()
      reads this, cache
    {
      && Sized(Model())
      && blockSize <= |device|
      && uninstallData != uninstallDataRev
      && uninstallData.Length == uninstallDataRev.Length == UNINSTALL_DATA_MAX
      && uninstallDataCount <= UNINSTALL_DATA_MAX
    }

    /** The recorded entries. */
    ghost function Log(): (log: seq<Undo>)
      requires uninstallDataCount <= uninstallData.Length
      reads this, uninstallData
      ensures |log| == uninstallDataCount
    {
      uninstallData[..uninstallDataCount]
    }

    /** The state after `device_init` read block 0. */
    constructor (device: seq<byte>, blockSize: nat, script: Script)
      requires 0 < blockSize <= |device|
      ensures Valid() && State() == Fresh(device, blockSize) && Starts(State()) && Log() == []
      ensures this.script == script && this.blockSize == blockSize && !uninstalling
      ensures fresh(cache) && fresh(uninstallData) && fresh(uninstallDataRev)
    {
      this.device, this.script, this.blockSize, tick := device, script, blockSize, 0;
      blocks := |device| / blockSize;
      cache := new byte[blockSize](i requires 0 <= i < |device| => device[i]);
      dirty, cachedBlock := false, 0;
      uninstallData := new Undo[UNINSTALL_DATA_MAX](_ => Undo(0, []));
      uninstallDataRev := new Undo[UNINSTALL_DATA_MAX](_ => Undo(0, []));
      uninstallDataCount, uninstalling := 0, false;
      new;
      FreshStarts(device, blockSize);
      assert cache[..] == device[..blockSize];
      assert State() == Fresh(device, blockSize);
      hide Sized, Coherent;
    }

    // ---- the medium ---------------------------------------------------------

    /** One access to the medium. */
    method Fails() returns (failed: bool)
      modifies `tick
      ensures failed == script.fails(old(tick)) && tick == old(tick) + 1
    {
      failed := script.fails(tick);
      tick := tick + 1;
    }

    /** Write the cache at `pos`; a failed write may have replaced any of the bytes. */
    method WriteAt(pos: nat) returns (ok: bool)
      requires cache.Length == blockSize && pos + blockSize <= |device|
      modifies `device, `tick
      ensures ok == !script.fails(old(tick)) && tick == old(tick) + 1
      ensures device == if ok then Overwrite(old(device), pos, cache[..])
                        else Torn(script, old(tick), old(device), pos, cache[..])
    {
      var now := tick;
      ghost var torn := Torn(script, now, device, pos, cache[..]);
      var failed := Fails();
      ok := !failed;
      if ok {
        device := Overwrite(device, pos, cache[..]);
      } else {
        var i := 0;
        while i < blockSize
          invariant i <= blockSize && |device| == |old(device)| && tick == now + 1
          invariant forall k | 0 <= k < |device| ::
                      device[k] == if pos <= k < pos + i then torn[k] else old(device)[k]
        {
          if script.torn(now, pos + i) {
            device := device[pos + i := cache[i]];
          }
          i := i + 1;
        }
        assert device == torn;
      }
    }

    /** Read a block into the cache; a failed read may leave anything there. */
    method ReadAt(pos: nat) returns (ok: bool)
      requires cache.Length == blockSize
      modifies cache, `tick
      ensures ok == (!script.fails(old(tick)) && pos + blockSize <= |device|) && tick == old(tick) + 1
      ensures cache[..] == if ok then device[pos..pos + blockSize] else Noise(script, old(tick), blockSize)
    {
      var now := tick;
      var failed := Fails();
      ok := !failed && pos + blockSize <= |device|;
      var i := 0;
      while i < blockSize
        invariant i <= blockSize && tick == now + 1
        invariant forall k | 0 <= k < i :: cache[k] == if ok then device[pos + k] else script.noise(now, k)
      {
        cache[i] := if ok then device[pos + i] else script.noise(now, i);
        i := i + 1;
      }
    }

    // ---- the cache ----------------------------------------------------------

    method FlushCache() returns (ok: bool)
      requires Valid()
      modifies `device, `dirty, `tick
      ensures Valid() && Did(State(), ok) == Flush(old(State()), script)
      ensures Flushes(old(Model()), Model()) && |device| == |old(device)| && tick >= old(tick)
      ensures ok ==> !dirty && device == Logical(old(Model()))
      ensures !ok ==> dirty && old(dirty)
      ensures old(Coherent(Model())) && ok ==> Coherent(Model())
      ensures Calm(script, old(tick)) ==> ok
    {
      FlushFacts(State(), script);
      ghost var f := Flush(State(), script);
      if !dirty {
        return true;
      }
      BlockInside(cachedBlock, blocks, blockSize, |device|);
      var failed := Fails();
      if failed {
        return false;
      }
      ok := WriteAt(cachedBlock * blockSize);
      if !ok {
        return false;
      }
      dirty := false;
      return true;
    }

    /** Seek to a block and read it. */
    method FetchBlock(block: nat) returns (ok: bool)
      requires Valid()
      modifies `cachedBlock, `tick, cache
      ensures Did(State(), ok) == Fetch(old(State()), script, block)
    {
      hide Coherent, Logical;
      var failed := Fails();
      if failed {
        return false;
      }
      ProductNonNegative(block, blockSize);
      ok := ReadAt(block * blockSize);
      if !ok {
        return;
      }
      cachedBlock := block;
    }

    /** Make `block` the cached block. */
    method CacheBlock(block: nat) returns (ok: bool)
      requires Valid()
      modifies `device, `dirty, `cachedBlock, `tick, cache
      ensures Valid() && Did(State(), ok) == CacheModel.CacheBlock(old(State()), script, block)
    {
      CacheFacts(State(), script, block);
      hide Coherent, Logical, Touches, Fetch;
      if cachedBlock == block {
        return true;
      }
      if dirty {
        ok := FlushCache();
        if !ok {
          return;
        }
      }
      ok := FetchBlock(block);
      hide Flush;
    }

    /** The block of a position, the offset in it, and how much of a range lies in it. */
    method BlockOf(pos: nat, limit: nat) returns (block: nat, offset: nat, length: nat)
      requires blockSize > 0
      ensures block == BlockAt(pos, blockSize) && offset == OffsetAt(pos, blockSize)
      ensures length == ChunkLength(pos, limit, blockSize) && offset + length <= blockSize && length <= limit
      ensures limit > 0 ==> length > 0
    {
      block := pos / blockSize;
      offset := pos % blockSize;
      length := if limit > blockSize - offset then blockSize - offset else limit;
    }

    /** The part of a read that lies in one block. */
    method ReadChunk(loc: nat, limit: nat) returns (ok: bool, chunk: seq<byte>)
      requires Valid() && limit > 0
      modifies `device, `dirty, `cachedBlock, `tick, cache
      ensures Valid() && |chunk| <= limit && (ok ==> chunk != [])
      ensures ReadRange(old(State()), script, loc, limit) == Continued(Did(State(), ok), script, loc, limit, chunk)
    {
      FirstRead(State(), script, loc, limit);
      hide ReadRange, Continued, CacheModel.CacheBlock, BlockAt, OffsetAt, ChunkLength, Sized;
      var block, offset, length := BlockOf(loc, limit);
      ok := CacheBlock(block);
      chunk := [];
      if ok {
        chunk := cache[offset..offset + length];
        assert chunk == State().disk.cache[offset..offset + length];
      }
    }

    /** Read `count` bytes at `loc`. */
    method DeviceRead(loc: nat, count: nat) returns (ok: bool, buffer: seq<byte>)
      requires Valid()
      modifies `device, `dirty, `cachedBlock, `tick, cache
      ensures Valid() && DidRead(State(), ok, buffer) == ReadRange(old(State()), script, loc, count)
    {
      ghost var m := State();
      hide ReadRange, Sized;
      EmptyRead(m, script, loc);
      buffer := [];
      var progress := 0;
      while progress < count
        invariant progress <= count && Valid()
        invariant var rest := ReadRange(State(), script, loc + progress, count - progress);
                  ReadRange(m, script, loc, count) == rest.(bytes := buffer + rest.bytes)
      {
        var chunk;
        ok, chunk := ReadChunk(loc + progress, count - progress);
        if !ok {
          return;
        }
        ghost var rest := ReadRange(State(), script, loc + progress + |chunk|, count - progress - |chunk|);
        assert buffer + (chunk + rest.bytes) == buffer + chunk + rest.bytes;
        buffer := buffer + chunk;
        progress := progress + |chunk|;
      }
      EmptyRead(State(), script, loc + progress);
      ok := true;
    }

    /** Replace bytes of the cached block. */
    method DirtyCache(offset: nat, data: seq<byte>)
      requires offset + |data| <= cache.Length
      modifies `dirty, cache
      ensures State() == Dirtied(old(State()), offset, data)
    {
      CopyToCache(offset, data);
      dirty := true;
      hide Overwrite;
    }

    /** Cache a block and replace bytes of it. */
    method ChangeBlock(ghost loc: nat, block: nat, offset: nat, data: seq<byte>, length: nat) returns (ok: bool)
      requires Valid() && block == BlockAt(loc, blockSize) && offset == OffsetAt(loc, blockSize)
      requires length <= |data| && offset + length <= blockSize
      modifies `device, `dirty, `cachedBlock, `tick, cache
      ensures Valid() && Did(State(), ok) == AfterChunk(old(State()), script, loc, data, length)
    {
      hide CacheModel.CacheBlock, BlockAt, OffsetAt, Coherent;
      ok := CacheBlock(block);
      if ok {
        DirtyCache(offset, data[..length]);
      }
    }

    /** The part of a write that lies in one block. */
    method WriteChunk(loc: nat, data: seq<byte>) returns (ok: bool, written: nat)
      requires Valid() && data != []
      modifies `device, `dirty, `cachedBlock, `tick, cache
      ensures Valid() && (ok ==> 0 < written <= |data|)
      ensures WriteRange(old(State()), script, loc, data)
           == if ok then WriteRange(State(), script, loc + written, data[written..]) else Did(State(), false)
    {
      ghost var before := State();
      assert blockSize > 0;
      hide WriteRange, AfterChunk, BlockAt, OffsetAt, ChunkLength, Sized;
      var block, offset;
      block, offset, written := BlockOf(loc, |data|);
      AfterFirstWrite(before, script, loc, data, written);
      ok := ChangeBlock(loc, block, offset, data, written);
    }

    /** The copy loop of a write. */
    method WriteBytes(loc: nat, data: seq<byte>) returns (ok: bool)
      requires Valid()
      modifies `device, `dirty, `cachedBlock, `tick, cache
      ensures Valid() && Did(State(), ok) == WriteRange(old(State()), script, loc, data)
    {
      ghost var m := State();
      hide WriteRange, Sized;
      var progress := 0;
      assert data[0..] == data;
      while progress < |data|
        invariant progress <= |data| && Valid()
        invariant WriteRange(m, script, loc, data) == WriteRange(State(), script, loc + progress, data[progress..])
      {
        var rest := data[progress..];
        var written;
        ok, written := WriteChunk(loc + progress, rest);
        if !ok {
          return;
        }
        assert data[progress + written..] == rest[written..];
        progress := progress + written;
      }
      assert data[progress..] == [];
      EmptyWrite(State(), script, loc + progress);
      ok := true;
    }

    /** Record the old bytes, unless uninstalling, then write. */
    method DeviceWrite(data: seq<byte>, loc: nat) returns (ok: bool)
      requires Valid()
      modifies `device, `dirty, `cachedBlock, `tick, `uninstallDataCount, cache, uninstallData
      ensures Valid()
      ensures !uninstalling ==> Logged(State(), Log(), ok) == LoggedWrite(old(State()), old(Log()), script, loc, data)
      ensures uninstalling ==> Did(State(), ok) == WriteRange(old(State()), script, loc, data)
      ensures uninstalling ==> uninstallData[..] == old(uninstallData[..]) && Log() == old(Log())
      ensures !ok && old(Coherent(Model())) && loc % blockSize + |data| <= blockSize ==>
                Flushes(old(Model()), Model())
    {
      OneBlockWrite(State(), script, loc, data);
      LoggedOneBlock(State(), Log(), script, loc, data);
      hide Coherent, Flushes, LoggedWrite;
      ghost var log := Log();
      var saved: seq<byte> := [];
      hide ReadRange, WriteRange, Sized;
      if !uninstalling {
        if uninstallDataCount >= UNINSTALL_DATA_MAX {
          return false;
        }
        ok, saved := DeviceRead(loc, |data|);
        if !ok {
          return;
        }
        uninstallData[uninstallDataCount] := Undo(loc, saved);
      }
      ok := WriteBytes(loc, data);
      if ok && !uninstalling {
        uninstallDataCount := uninstallDataCount + 1;
        assert Log() == log + [Undo(loc, saved)];
      }
    }

    method CopyToCache(offset: nat, data: seq<byte>)
      requires offset + |data| <= cache.Length
      modifies cache
      ensures cache[..] == Overwrite(old(cache[..]), offset, data)
    {
      forall i | 0 <= i < |data| {
        cache[offset + i] := data[i];
      }
    }
  }
}
