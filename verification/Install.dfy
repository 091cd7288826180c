/** Installing on the static state: the operations in place, the undo after a failure or a refusal,
    and the whole way to a later uninstall. */
module Installs {
  import opened Multiples
  import opened Options
  import opened DiskModel
  import opened CacheModel
  import opened InstallModel
  import opened InstallFaults
  import opened BlockCaches
  import opened UninstallModel
  import opened Uninstalls
  import opened UndoFiles

  method Perform(c: BlockCache, op: Operation) returns (ok: bool)
    requires c.Valid() && !c.uninstalling
    modifies c`device, c`dirty, c`cachedBlock, c`tick, c`uninstallDataCount, c.cache, c.uninstallData
    ensures c.Valid() && Logged(c.State(), c.Log(), ok) == PerformOne(old(c.State()), old(c.Log()), c.script, op)
  {
    hide ReadRange, LoggedWrite, Flush, Sized;
    match op {
      case ReadOp(loc, count) =>
        var buffer;
        ok, buffer := c.DeviceRead(loc, count);
      case WriteOp(loc, data) =>
        ok := c.DeviceWrite(data, loc);
      case FlushOp =>
        ok := c.FlushCache();
        hide Touches, Coherent, Logical;
    }
  }

  /** Run the operations until one fails; `done` counts those that did not. */
  method RunOperations(c: BlockCache, ops: seq<Operation>) returns (done: nat)
    requires c.Valid() && !c.uninstalling
    modifies c`device, c`dirty, c`cachedBlock, c`tick, c`uninstallDataCount, c.cache, c.uninstallData
    ensures c.Valid() && Performed(c.State(), c.Log(), done) == PerformAll(old(c.State()), old(c.Log()), c.script, ops)
  {
    ghost var m, log := c.State(), c.Log();
    hide PerformOne, Sized;
    done := 0;
    assert ops[0..] == ops;
    while done < |ops|
      invariant done <= |ops| && c.Valid()
      invariant var rest := PerformAll(c.State(), c.Log(), c.script, ops[done..]);
                PerformAll(m, log, c.script, ops) == rest.(done := done + rest.done)
    {
      var ok := Perform(c, ops[done]);
      assert ops[done..][0] == ops[done] && ops[done..][1..] == ops[done + 1..];
      if !ok {
        return;
      }
      done := done + 1;
    }
    assert ops[done..] == [];
  }

  /** The state in which undoing begins. */
  function BeforeUndo(m: Machine, s: Script, ops: seq<Operation>, refused: bool): Performed
    requires Sized(m.disk)
  {
    var r := PerformAll(m, [], s, ops);
    if r.done < |ops| || refused then r else r.(machine := Flush(r.machine, s).machine)
  }

  /** What holds when undoing begins: all bytes are undoable outside the risk of a failed write,
      and all of them if no operation failed or the failed one was harmless. */
  lemma UndoBegins(m: Machine, s: Script, ops: seq<Operation>, refused: bool)
    requires Starts(m)
    ensures var r := BeforeUndo(m, s, ops, refused);
            var d := r.machine.disk;
            var failed := if r.done < |ops| then ops[r.done] else FlushOp;
            && SameShape(m.disk, d) && Inside(r.log, Reach(m.disk)) && |r.log| <= UNINSTALL_DATA_MAX
            && Undoable(m.disk.device, d, r.log, failed.Start(), failed.RiskEnd(m.disk.blockSize))
            && (r.done == |ops| ==> Undoable(m.disk.device, d, r.log, 0, 0))
  {
    StartsKept(m);
    AllKeeps(m.disk.device, m, [], [], s, ops);
    var r := PerformAll(m, [], s, ops);
    assert m.disk.blockSize > 0;
    hide PerformAll, Harmless, Undoable, AllInside, AllWritten, Reach, Inside, Coherent, Logical, Flush, Touches, Sized,
      WellFormed, SameRanges, Apply, Head;
    if r.done == |ops| && !refused {
      FlushFacts(r.machine, s);
      LogicalKept(r.machine.disk, Flush(r.machine, s).machine.disk);
      TouchUndoable(m.disk.device, r.machine.disk, Flush(r.machine, s).machine.disk, r.log, 0, 0);
    }
  }

  /** The last flush of an installation that did not fail. */
  lemma InstallSucceeds(m: Machine, s: Script, ops: seq<Operation>)
    requires Starts(m) && PerformAll(m, [], s, ops).done == |ops|
    requires Flush(PerformAll(m, [], s, ops).machine, s).ok
    ensures var r := PerformAll(m, [], s, ops);
            var d := Flush(r.machine, s).machine.disk;
            d.device == Apply(m.disk.device, AllWritten(ops)) && SameRanges(r.log, AllWritten(ops))
  {
    StartsKept(m);
    AllKeeps(m.disk.device, m, [], [], s, ops);
    var r := PerformAll(m, [], s, ops);
    FlushFacts(r.machine, s);
    assert [] + AllWritten(ops) == AllWritten(ops);
    hide PerformAll, Undoable, AllInside, AllWritten, Reach, Inside, Coherent, Logical, Flush, Touches, Sized, WellFormed,
      SameRanges, Apply, Spoiled;
  }

  /** Everything fits the device and the log. */
  predicate Feasible(ops: seq<Operation>, size: nat) {
    AllInside(ops, size) && |AllWritten(ops)| <= UNINSTALL_DATA_MAX
  }

  /** Nothing fails on a calm device if everything fits. */
  lemma CalmInstall(m: Machine, s: Script, ops: seq<Operation>)
    requires Starts(m) && Calm(s, m.tick) && Feasible(ops, Reach(m.disk))
    ensures PerformAll(m, [], s, ops).done == |ops| && Flush(PerformAll(m, [], s, ops).machine, s).ok
  {
    StartsKept(m);
    AllKeeps(m.disk.device, m, [], [], s, ops);
    FlushFacts(PerformAll(m, [], s, ops).machine, s);
    hide PerformAll, AllInside, AllWritten, Reach, Coherent, Logical, Flush, Touches, Sized, WellFormed, Kept, Spoiled;
  }

  /** The operation is not a write over a block boundary. */
  predicate InOneBlock(op: Operation, blockSize: nat)
    requires blockSize > 0
  {
    op.WriteOp? ==> op.loc % blockSize + |op.data| <= blockSize
  }

  lemma NoRisk(op: Operation, blockSize: nat)
    requires blockSize > 0 && InOneBlock(op, blockSize)
    ensures op.RiskEnd(blockSize) == op.Start()
  {
    if op.WriteOp? && op.data != [] {
      HeadNext(op.loc, |op.data|, blockSize);
    }
  }

  /** What undoing from that state gives, and what an installation gives without undoing. */
  lemma InstallFacts(m: Machine, s: Script, ops: seq<Operation>, refused: bool)
    requires Starts(m)
    ensures var b := BeforeUndo(m, s, ops, refused);
            var undone := Apply(b.machine.disk.device, Reverse(b.log));
            var failed := if b.done < |ops| then ops[b.done] else FlushOp;
            && |b.machine.disk.device| == |m.disk.device| && |b.log| <= UNINSTALL_DATA_MAX
            && Inside(Reverse(b.log), Reach(m.disk)) && Reverse(Reverse(b.log)) == b.log
            && (forall i | 0 <= i < |m.disk.device| && Outside(i, failed.Start(), failed.RiskEnd(m.disk.blockSize)) ::
                  undone[i] == m.disk.device[i])
            && (b.done == |ops| || InOneBlock(failed, m.disk.blockSize) ==> undone == m.disk.device)
    ensures var r := PerformAll(m, [], s, ops);
            r.done == |ops| && !refused && Flush(r.machine, s).ok ==>
              BeforeUndo(m, s, ops, refused).machine.disk.device == Apply(m.disk.device, AllWritten(ops))
              && SameRanges(r.log, AllWritten(ops))
    ensures !refused && Calm(s, m.tick) && Feasible(ops, Reach(m.disk)) ==>
              PerformAll(m, [], s, ops).done == |ops| && Flush(PerformAll(m, [], s, ops).machine, s).ok
  {
    UndoBegins(m, s, ops, refused);
    var b := BeforeUndo(m, s, ops, refused);
    var failed := if b.done < |ops| then ops[b.done] else FlushOp;
    UndoRestores(m.disk.device, b.machine.disk, b.log, failed.Start(), failed.RiskEnd(m.disk.blockSize));
    if b.done == |ops| {
      UndoRestores(m.disk.device, b.machine.disk, b.log, 0, 0);
    } else if InOneBlock(failed, m.disk.blockSize) {
      NoRisk(failed, m.disk.blockSize);
    }
    if PerformAll(m, [], s, ops).done == |ops| && Flush(PerformAll(m, [], s, ops).machine, s).ok {
      InstallSucceeds(m, s, ops);
    }
    if Calm(s, m.tick) && Feasible(ops, Reach(m.disk)) {
      CalmInstall(m, s, ops);
    }
    InsideReversed(b.log, Reach(m.disk));
    ReverseTwice(b.log);
    hide PerformAll, Undoable, AllWritten, Feasible, Calm, Reach, Inside, Coherent, Logical, Flush, Touches, Sized,
      SameRanges, Apply, Reverse;
  }

  /** The operations, the checks between them, and a flush.  `refused` says that a check ended the
      installation after the operations: then, and after any failure, the log is replayed on the
      bare device.  If that reports success the device has its original bytes back, except those
      that one failed write had written before the last block of its range; all of them, if a check
      refused, the flush failed, or the failed operation lay in one block.  Without a failure the
      reversed log is kept for a later uninstall. */
  method Install(c: BlockCache, ops: seq<Operation>, refused: bool) returns (done: nat, ok: bool, undone: bool)
    requires c.Valid() && !c.uninstalling && Starts(c.State()) && c.Log() == []
    modifies c`device, c`dirty, c`cachedBlock, c`tick, c`uninstallDataCount, c`uninstalling, c.cache,
      c.uninstallData, c.uninstallDataRev
    ensures c.Valid() && |c.device| == |old(c.device)|
    ensures done == PerformAll(old(c.State()), [], c.script, ops).done <= |ops|
    ensures ok ==>
              && done == |ops| && !refused
              && c.device == Apply(old(c.device), AllWritten(ops))
              && Apply(c.device, c.Log()) == old(c.device)
              && SameRanges(Reverse(c.Log()), AllWritten(ops)) && Inside(c.Log(), c.blocks * c.blockSize)
    ensures !ok && undone ==>
              var r := BeforeUndo(old(c.State()), c.script, ops, refused);
              c.device == Apply(r.machine.disk.device, Reverse(r.log))
    ensures !ok && undone ==>
              var failed := if done < |ops| then ops[done] else FlushOp;
              forall i | 0 <= i < |c.device| && Outside(i, failed.Start(), failed.RiskEnd(c.blockSize)) ::
                c.device[i] == old(c.device)[i]
    ensures !ok && undone && (done == |ops| || InOneBlock(ops[done], c.blockSize)) ==> c.device == old(c.device)
    ensures !ok && undone && done < |ops| ==>
              (c.device == old(c.device) <==> Restores(old(c.State()), c.script, ops))
    ensures !ok && Calm(c.script, BeforeUndo(old(c.State()), c.script, ops, refused).machine.tick) ==> undone
    ensures !ok && OneFailure(c.script, BeforeUndo(old(c.State()), c.script, ops, refused).machine.tick, c.tick) ==> undone
    ensures !refused && Calm(c.script, old(c.tick)) && Feasible(ops, c.blocks * c.blockSize) ==> ok
  {
    InstallFacts(c.State(), c.script, ops, refused);
    hide *;
    done := RunOperations(c, ops);
    ok := done == |ops| && !refused;
    if ok {
      ok := c.FlushCache();
    }
    ReverseUninstallData(c);
    undone := false;
    if !ok {
      undone := Uninstall(c);
    }
  }

  lemma InsideReversed(log: seq<Undo>, size: nat)
    requires Inside(log, size)
    ensures Inside(Reverse(log), size)
  {
    forall k | 0 <= k < |log|
      ensures Reverse(log)[k].data == [] || Reverse(log)[k].loc + |Reverse(log)[k].data| <= size
    {
      ReverseAt(log, k);
    }
  }

  lemma ReverseTwice(log: seq<Undo>)
    ensures Reverse(Reverse(log)) == log
  {
    forall k | 0 <= k < |log|
      ensures Reverse(Reverse(log))[k] == log[k]
    {
      ReverseAt(Reverse(log), k);
      ReverseAt(log, |log| - 1 - k);
    }
  }

  /** An installation under a script that spoils it: one failure in the middle of a write, none
      afterwards.  The undo reports success, and a byte of the device is not what it was. */
  method SpoiledInstall(device: seq<byte>, blockSize: nat, ops: seq<Operation>, script: Script)
    returns (c: BlockCache, undone: bool)
    requires 0 < blockSize <= |device| && Starts(Fresh(device, blockSize)) && Spoils(Fresh(device, blockSize), script, ops)
    ensures undone && c.device != device
  {
    c := new BlockCache(device, blockSize, script);
    assert c.State() == Fresh(device, blockSize);
    hide PerformAll, Sized, Coherent, Apply;
    var done, ok;
    done, ok, undone := Install(c, ops, false);
  }

  /** The log of an installation can be stored if no write was empty. */
  lemma Storable(log: seq<Undo>, ops: seq<Operation>)
    requires SameRanges(Reverse(log), AllWritten(ops)) && NoEmptyWrite(ops)
    ensures NoneEmpty(log)
  {
    NoEmptyRecord(ops);
    ReverseTwice(log);
    forall k | 0 <= k < |log|
      ensures log[k].data != []
    {
      ReverseAt(Reverse(log), k);
      assert |Reverse(log)[|log| - 1 - k].data| == |AllWritten(ops)[|log| - 1 - k].data|;
    }
  }

  lemma {:induction false} NoEmptyRecord(ops: seq<Operation>)
    requires NoEmptyWrite(ops)
    ensures NoneEmpty(AllWritten(ops))
  {
    if ops != [] {
      NoEmptyRecord(ops[1..]);
    }
  }

  /** A later program: load the log from a file and uninstall. */
  method UninstallLater(device: seq<byte>, blockSize: nat, file: seq<byte>, script: Script)
    returns (ok: bool, result: seq<byte>)
    requires 0 < blockSize <= |device|
    ensures ok ==> Parse(file).Some? && result == Apply(device, Parse(file).value)
    ensures Calm(script, 0) && Parse(file).Some? && Inside(Parse(file).value, |device| / blockSize * blockSize) ==> ok
  {
    hide Parse, Apply, Sized, Coherent;
    var c := new BlockCache(device, blockSize, script);
    ok := LoadUninstallData(c, file);
    if ok {
      ok := Uninstall(c);
    }
    result := c.device;
  }

  /** Install, store the log, and later load it and uninstall with a fresh cache: if every step
      reports success the device is byte for byte what it was before the installation, and if
      nothing fails on the medium every step does. */
  method InstallAndUninstall(c: BlockCache, ops: seq<Operation>, later: Script) returns (ok: bool, device: seq<byte>)
    requires c.Valid() && !c.uninstalling && Starts(c.State()) && c.Log() == [] && |c.device| < U64
    modifies c`device, c`dirty, c`cachedBlock, c`tick, c`uninstallDataCount, c`uninstalling, c.cache,
      c.uninstallData, c.uninstallDataRev
    ensures ok ==> device == old(c.device)
    ensures Calm(c.script, old(c.tick)) && Calm(later, 0) && Feasible(ops, c.blocks * c.blockSize) && NoEmptyWrite(ops) ==>
              ok
  {
    BlockCount(c);
    var done, installed, undone := Install(c, ops, false);
    if !installed {
      return false, c.device;
    }
    if NoEmptyWrite(ops) {
      Storable(c.Log(), ops);
    }
    hide Apply, Image, Parse, SameRanges, Reverse, AllWritten, NoEmptyWrite, AllInside, BeforeUndo, Restores, Sized;
    var stored, file := StoreUninstallData(c);
    if !stored {
      return false, c.device;
    }
    StoredLoads(c, file);
    ok, device := UninstallLater(c.device, c.blockSize, file, later);
  }

  lemma BlockCount(c: BlockCache)
    requires c.Valid()
    ensures c.blocks == |c.device| / c.blockSize
  {
    DivisionUnique(|c.device|, c.blockSize, c.blocks, |c.device| - c.blocks * c.blockSize);
  }

  /** What was stored loads. */
  lemma StoredLoads(c: BlockCache, file: seq<byte>)
    requires c.Valid() && |c.device| < U64 && Inside(c.Log(), c.blocks * c.blockSize)
    requires NoneEmpty(c.Log()) && file == Image(c.Log())
    ensures Parse(file) == Some(c.Log())
  {
    StoreThenLoad(c.Log(), []);
    assert Image(c.Log()) + [] == Image(c.Log());
  }
}
