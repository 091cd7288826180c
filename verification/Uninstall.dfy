/** Undoing an installation: reverse the log in place and replay it on a device that may fail. */
module Uninstalls {
  import opened DiskModel
  import opened CacheModel
  import opened BlockCaches
  import opened InstallModel
  import opened UninstallModel

  lemma {:induction false} ReverseAt(log: seq<Undo>, k: nat)
    requires k < |log|
    ensures Reverse(log)[k] == log[|log| - 1 - k]
  {
    if k < |log| - 1 {
      ReverseAt(log[1..], k);
    }
  }

  /** Reverse the recorded entries through a second array. */
  method ReverseUninstallData(c: BlockCache)
    requires c.Valid()
    modifies c.uninstallData, c.uninstallDataRev
    ensures c.Valid() && c.Log() == Reverse(old(c.Log()))
  {
    ghost var log := c.Log();
    var n := c.uninstallDataCount;
    var i := 0;
    while i < n
      invariant i <= n && c.Log() == log
      invariant forall k | n - i <= k < n :: c.uninstallDataRev[k] == log[n - 1 - k]
    {
      c.uninstallDataRev[n - 1 - i] := c.uninstallData[i];
      i := i + 1;
    }
    forall k | 0 <= k < n {
      c.uninstallData[k] := c.uninstallDataRev[k];
    }
    forall k | 0 <= k < n
      ensures c.Log()[k] == Reverse(log)[k]
    {
      ReverseAt(log, k);
    }
  }

  /** Forget the cached block. */
  method DropCache(c: BlockCache)
    requires c.Valid()
    modifies c`dirty, c`cachedBlock
    ensures c.Valid() && c.State() == Dropped(old(c.State()))
  {
    DroppedSized(c.State());
    c.dirty := false;
    c.cachedBlock := -1;
  }

  /** Replay one entry, once more after a failure; in between, flush and forget the cached block. */
  method Replay(c: BlockCache, entry: Undo) returns (written: bool, flushed: bool)
    requires c.Valid() && c.uninstalling
    modifies c`device, c`dirty, c`cachedBlock, c`tick, c`uninstallDataCount, c.cache, c.uninstallData
    ensures c.Valid() && Replayed(c.State(), written, flushed) == ReplayEntry(old(c.State()), c.script, entry)
    ensures c.uninstallData[..] == old(c.uninstallData[..]) && c.Log() == old(c.Log())
  {
    ghost var m := c.State();
    hide WriteRange, Flush, Sized, Coherent, Touches, Logical, Dropped;
    written, flushed := true, true;
    var retry := false;
    while true
      invariant c.Valid() && c.uninstalling && written
      invariant c.uninstallData[..] == old(c.uninstallData[..]) && c.uninstallDataCount == old(c.uninstallDataCount)
      invariant !retry ==> flushed && c.State() == m
      invariant retry ==>
                  var w := WriteRange(m, c.script, entry.loc, entry.data);
                  !w.ok && Sized(w.machine.disk) && flushed == Flush(w.machine, c.script).ok
                  && c.State() == Dropped(Flush(w.machine, c.script).machine)
      decreases if retry then 0 else 1
    {
      var ok := c.DeviceWrite(entry.data, entry.loc);
      if ok {
        return;
      }
      if retry {
        written := false;
        return;
      }
      ok := c.FlushCache();
      if !ok {
        flushed := false;
      }
      DropCache(c);
      retry := true;
    }
  }

  /** Replay every entry, whatever becomes of those before it. */
  method ReplayLog(c: BlockCache) returns (writeFailed: bool, flushFailed: bool)
    requires c.Valid() && c.uninstalling
    modifies c`device, c`dirty, c`cachedBlock, c`tick, c`uninstallDataCount, c.cache, c.uninstallData
    ensures c.Valid() && c.Log() == old(c.Log())
    ensures var all := ReplayAll(old(c.State()), c.script, c.Log());
            c.State() == all.machine && writeFailed == !AllTrue(all.written) && flushFailed == !all.flushed
  {
    ghost var m, log := c.State(), c.Log();
    hide ReplayEntry, Sized, AllTrue;
    writeFailed, flushFailed := false, false;
    ghost var written: seq<bool> := [];
    NothingMissing();
    var i := 0;
    assert log[0..] == log;
    while i < c.uninstallDataCount
      invariant i <= c.uninstallDataCount && c.Valid() && c.uninstalling
      invariant c.uninstallData[..] == old(c.uninstallData[..]) && c.uninstallDataCount == old(c.uninstallDataCount)
      invariant writeFailed <==> !AllTrue(written)
      invariant var rest := ReplayAll(c.State(), c.script, log[i..]);
                ReplayAll(m, c.script, log) == Tally(rest.machine, written + rest.written, !flushFailed && rest.flushed)
    {
      assert c.uninstallData[i] == log[i] && log[i..][0] == log[i] && log[i..][1..] == log[i + 1..];
      var ok, flushed := Replay(c, c.uninstallData[i]);
      ghost var rest := ReplayAll(c.State(), c.script, log[i + 1..]);
      assert written + ([ok] + rest.written) == written + [ok] + rest.written;
      OneMore(written, ok);
      written := written + [ok];
      if !ok {
        writeFailed := true;
      }
      if !flushed {
        flushFailed := true;
      }
      i := i + 1;
    }
    assert log[i..] == [] && written + [] == written;
  }

  /** Replay the whole log on the bare device.  A result of true means that the device equals the
      log entries applied in order, whatever failed on the way; it is what a medium on which nothing
      fails gives, and also one on which a single access fails that is not the last one. */
  method Uninstall(c: BlockCache) returns (ret: bool)
    requires c.Valid()
    modifies c`device, c`dirty, c`cachedBlock, c`tick, c`uninstallDataCount, c`uninstalling, c.cache, c.uninstallData
    ensures c.Valid() && c.uninstalling && c.Log() == old(c.Log()) && |c.device| == |old(c.device)|
    ensures Did(c.State(), ret) == UndoAll(old(c.State()), c.script, c.Log())
    ensures ret ==> c.device == Apply(old(c.device), c.Log()) && !c.dirty
    ensures Calm(c.script, old(c.tick)) && Inside(c.Log(), c.blocks * c.blockSize) ==> ret
    ensures OneFailure(c.script, old(c.tick), c.tick) && Inside(c.Log(), c.blocks * c.blockSize) ==> ret
  {
    UninstallFacts(c.State(), c.script, c.Log());
    DroppedSized(c.State());
    hide Dropped, Flush, Sized, OneFailure, Apply, Inside, AllTrue, Coherent, Calm, ReplayAll;
    c.uninstalling := true;
    DropCache(c);
    var writeFailed, flushFailed := ReplayLog(c);
    var ok := c.FlushCache();
    if !ok {
      flushFailed := true;
    }
    ret := !writeFailed && !flushFailed;
  }

  lemma NothingMissing()
    ensures AllTrue([])
  {
  }

  lemma OneMore(written: seq<bool>, ok: bool)
    ensures AllTrue(written + [ok]) <==> AllTrue(written) && ok
  {
    assert ok == (written + [ok])[|written|];
    assert forall k | 0 <= k < |written| :: written[k] == (written + [ok])[k];
  }

  lemma UninstallFacts(m: Machine, s: Script, log: seq<Undo>)
    requires Sized(m.disk)
    ensures var u := UndoAll(m, s, log);
            && Sized(u.machine.disk) && |u.machine.disk.device| == |m.disk.device|
            && (u.ok ==> u.machine.disk.device == Apply(m.disk.device, log) && !u.machine.disk.dirty)
            && (Calm(s, m.tick) && Inside(log, Reach(m.disk)) ==> u.ok)
            && (OneFailure(s, m.tick, u.machine.tick) && Inside(log, Reach(m.disk)) ==> u.ok)
  {
    UndoneBytes(m, s, log);
    UndoneSized(m, s, log);
    if Inside(log, Reach(m.disk)) {
      if Calm(s, m.tick) {
        CalmUndoes(m, s, log);
      }
      if OneFailure(s, m.tick, UndoAll(m, s, log).machine.tick) {
        OneFailureIsMended(m, s, log);
      }
    }
    hide UndoAll, Sized, Apply, Inside, OneFailure, Calm;
  }

  lemma UndoneSized(m: Machine, s: Script, log: seq<Undo>)
    requires Sized(m.disk)
    ensures Sized(UndoAll(m, s, log).machine.disk) && |UndoAll(m, s, log).machine.disk.device| == |m.disk.device|
  {
    DroppedSized(m);
    FlushFacts(ReplayAll(Dropped(m), s, log).machine, s);
    hide ReplayAll, Flush, Sized, Coherent, Logical;
  }
}
