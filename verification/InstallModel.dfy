/** An installation as a function of the fault script: device operations up to the first failure,
    what the log then undoes, and exactly when undoing is complete. */
module InstallModel {
  import opened DiskModel
  import opened CacheModel

  /** What an installation does to the device; later operations may depend on earlier reads. */
  datatype Operation = ReadOp(loc: nat, count: nat) | WriteOp(loc: nat, data: seq<byte>) | FlushOp
  {
    /** The bytes read or written lie below `size`. */
    predicate Fits(size: nat) {
      match this
      case ReadOp(loc, count) => count == 0 || loc + count <= size
      case WriteOp(loc, data) => data == [] || loc + |data| <= size
      case FlushOp => true
    }

    function Start(): nat {
      if WriteOp? then loc else 0
    }

    /** The end of the bytes that a failed write may leave changed: those before its last block. */
    function RiskEnd(blockSize: nat): nat
      requires blockSize > 0
    {
      if WriteOp? then loc + Head(loc, |data|, blockSize) else 0
    }
  }

  predicate AllInside(ops: seq<Operation>, size: nat) {
    forall k | 0 <= k < |ops| :: ops[k].Fits(size)
  }

  predicate NoEmptyWrite(ops: seq<Operation>) {
    forall k | 0 <= k < |ops| :: ops[k].WriteOp? ==> ops[k].data != []
  }

  function Written(op: Operation): seq<Undo> {
    if op.WriteOp? then [Undo(op.loc, op.data)] else []
  }

  /** The bytes the operations write, in order. */
  function AllWritten(ops: seq<Operation>): seq<Undo> {
    if ops == [] then [] else Written(ops[0]) + AllWritten(ops[1..])
  }

  // ---- the operations -------------------------------------------------------

  function PerformOne(m: Machine, log: seq<Undo>, s: Script, op: Operation): (p: Logged)
    requires Sized(m.disk)
    ensures Sized(p.machine.disk) && m.tick <= p.machine.tick
  {
    match op
    case ReadOp(loc, count) =>
      ReadFacts(m, s, loc, count);
      var r := ReadRange(m, s, loc, count);
      Logged(r.machine, log, r.ok)
    case WriteOp(loc, data) =>
      LoggedFacts(m, log, s, loc, data);
      LoggedWrite(m, log, s, loc, data)
    case FlushOp =>
      FlushFacts(m, s);
      var f := Flush(m, s);
      Logged(f.machine, log, f.ok)
  }

  /** The machine, the log, and how many operations succeeded. */
  datatype Performed = Performed(machine: Machine, log: seq<Undo>, done: nat)

  /** The operations up to the first that fails. */
  function PerformAll(m: Machine, log: seq<Undo>, s: Script, ops: seq<Operation>): (r: Performed)
    requires Sized(m.disk)
    ensures Sized(r.machine.disk) && r.done <= |ops| && m.tick <= r.machine.tick
    decreases |ops|
  {
    if ops == [] then Performed(m, log, 0)
    else
      var p := PerformOne(m, log, s, ops[0]);
      if !p.ok then Performed(p.machine, p.log, 0)
      else
        var rest := PerformAll(p.machine, p.log, s, ops[1..]);
        rest.(done := rest.done + 1)
  }

  /** What one operation does to the logical bytes and the log. */
  lemma OneFacts(m: Machine, log: seq<Undo>, s: Script, op: Operation)
    requires Sized(m.disk) && Coherent(m.disk)
    ensures var p := PerformOne(m, log, s, op);
            && SameShape(m.disk, p.machine.disk) && Reach(p.machine.disk) == Reach(m.disk) && m.tick <= p.machine.tick
            && (p.ok ==> Coherent(p.machine.disk) && op.Fits(Reach(m.disk)))
            && (p.ok && op.FlushOp? ==> !p.machine.disk.dirty)
            && (p.ok && op.WriteOp? ==>
                  && Touches(m.disk, p.machine.disk, op.loc, op.loc + |op.data|)
                  && Logical(p.machine.disk) == Overwrite(Logical(m.disk), op.loc, op.data)
                  && |log| < UNINSTALL_DATA_MAX && |p.log| == |log| + 1 && p.log[..|log|] == log
                  && Replaces(m.disk, p.log[|log|], op.loc, |op.data|))
            && (!p.ok && op.WriteOp? ==>
                  Blends(m.disk, p.machine.disk, op.loc, Front(op.data, Head(op.loc, |op.data|, m.disk.blockSize))))
            && (!op.WriteOp? ==> Flushes(m.disk, p.machine.disk))
            && (!p.ok || !op.WriteOp? ==> p.log == log)
            && (!p.ok && op.WriteOp? && (|log| >= UNINSTALL_DATA_MAX || !op.Fits(Reach(m.disk))) ==>
                  Flushes(m.disk, p.machine.disk))
            && (Calm(s, m.tick) && op.Fits(Reach(m.disk)) && (op.WriteOp? ==> |log| < UNINSTALL_DATA_MAX) ==> p.ok)
  {
    hide ReadRange, LoggedWrite, Flush, Coherent, Logical, Touches, Blends, Head, Reach, Sized, Overwrite, Replaces, Front;
    match op {
      case ReadOp(loc, count) => ReadFacts(m, s, loc, count);
      case WriteOp(loc, data) => LoggedFacts(m, log, s, loc, data);
      case FlushOp =>
        FlushFacts(m, s);
        SameReach(m.disk, Flush(m, s).machine.disk);
        LogicalKept(m.disk, Flush(m, s).machine.disk);
    }
  }

  lemma SameReach(s: Disk, t: Disk)
    requires Sized(s) && Sized(t) && Flushes(s, t)
    ensures Reach(t) == Reach(s)
  {
    hide Logical;
  }

  // ---- undoing --------------------------------------------------------------

  /** A write that replaced and logged old bytes keeps every byte undoable. */
  lemma LoggedUndoable(original: seq<byte>, s: Disk, t: Disk, log: seq<Undo>, u: Undo, loc: nat, count: nat)
    requires Undoable(original, s, log, 0, 0) && Touches(s, t, loc, loc + count) && Replaces(s, u, loc, count)
    ensures Undoable(original, t, log + [u], 0, 0)
  {
    if count == 0 {
      forall i | 0 <= i < |original|
        ensures Restored(log + [u], i, t.device[i]) == original[i]
        ensures Restored(log + [u], i, Logical(t)[i]) == original[i]
      {
        RestoredPush(log, u, i, t.device[i]);
        RestoredPush(log, u, i, Logical(t)[i]);
        hide Restored, Logical;
      }
      hide Restored, Logical;
    } else {
      WriteUndoable(original, s, t, log, u);
    }
  }

  predicate CoveredBy(log: seq<Undo>, i: int) {
    exists k | 0 <= k < |log| :: Covers(log[k], i)
  }

  lemma {:induction false} RestoredCovered(log: seq<Undo>, i: int, x: byte, y: byte)
    ensures CoveredBy(log, i) ==> Restored(log, i, x) == Restored(log, i, y)
    ensures !CoveredBy(log, i) ==> Restored(log, i, x) == x
  {
    if log != [] {
      RestoredCovered(log[1..], i, x, y);
      CoveredNext(log, i);
    }
  }

  lemma CoveredNext(log: seq<Undo>, i: int)
    requires log != []
    ensures CoveredBy(log, i) <==> Covers(log[0], i) || CoveredBy(log[1..], i)
  {
    if CoveredBy(log[1..], i) {
      var k :| 0 <= k < |log[1..]| && Covers(log[1..][k], i);
      assert Covers(log[k + 1], i);
    }
    if CoveredBy(log, i) && !Covers(log[0], i) {
      var k :| 0 <= k < |log| && Covers(log[k], i);
      assert Covers(log[1..][k - 1], i);
    }
  }

  /** Bytes of a failed write that are original bytes, or that an earlier entry covers, do no harm. */
  lemma BlendUndoable(original: seq<byte>, s: Disk, t: Disk, log: seq<Undo>, lo: int, data: seq<byte>)
    requires Undoable(original, s, log, 0, 0) && Blends(s, t, lo, data)
    requires forall i | lo <= i < lo + |data| && 0 <= i < |original| ::
               CoveredBy(log, i) || data[i - lo] == original[i]
    ensures Undoable(original, t, log, 0, 0)
  {
    hide CoveredBy, Logical;
    forall i | 0 <= i < |original|
      ensures Restored(log, i, t.device[i]) == original[i]
      ensures Restored(log, i, Logical(t)[i]) == original[i]
    {
      RestoredCovered(log, i, t.device[i], s.device[i]);
      RestoredCovered(log, i, Logical(t)[i], s.device[i]);
      RestoredCovered(log, i, s.device[i], s.device[i]);
      RestoredCovered(log, i, Logical(s)[i], s.device[i]);
      hide Restored;
    }
  }

  /** The log names the ranges of the writes. */
  predicate SameRanges(log: seq<Undo>, writes: seq<Undo>) {
    |log| == |writes| && forall k | 0 <= k < |log| :: log[k].loc == writes[k].loc && |log[k].data| == |writes[k].data|
  }

  lemma SameCovered(log: seq<Undo>, writes: seq<Undo>, i: int)
    requires SameRanges(log, writes)
    ensures CoveredBy(log, i) <==> CoveredBy(writes, i)
  {
    if CoveredBy(writes, i) {
      var k :| 0 <= k < |writes| && Covers(writes[k], i);
      assert Covers(log[k], i);
    }
    if CoveredBy(log, i) {
      var k :| 0 <= k < |log| && Covers(log[k], i);
      assert Covers(writes[k], i);
    }
  }

  /** After these writes and no failure: the logical bytes are their result, and all is undoable. */
  predicate Kept(original: seq<byte>, m: Machine, log: seq<Undo>, writes: seq<Undo>) {
    && Sized(m.disk) && Coherent(m.disk)
    && Undoable(original, m.disk, log, 0, 0)
    && SameRanges(log, writes) && |log| <= UNINSTALL_DATA_MAX && Inside(log, Reach(m.disk))
    && Logical(m.disk) == Apply(original, writes)
  }

  /** What a failure of this operation could leave changed is original, or covered by the log. */
  predicate Harmless(original: seq<byte>, writes: seq<Undo>, op: Operation, blockSize: nat, reach: nat)
    requires blockSize > 0
  {
    op.WriteOp? && |writes| < UNINSTALL_DATA_MAX && op.Fits(reach) ==>
      forall i | op.loc <= i < op.RiskEnd(blockSize) && i < |original| ::
        CoveredBy(writes, i) || op.data[i - op.loc] == original[i]
  }

  /** After the failure of an operation. */
  predicate Spoiled(original: seq<byte>, m: Machine, log: seq<Undo>, writes: seq<Undo>, op: Operation, reach: nat) {
    && Sized(m.disk) && SameRanges(log, writes) && |log| <= UNINSTALL_DATA_MAX && Inside(log, Reach(m.disk))
    && Undoable(original, m.disk, log, op.Start(), op.RiskEnd(m.disk.blockSize))
    && (Harmless(original, writes, op, m.disk.blockSize, reach) ==> Undoable(original, m.disk, log, 0, 0))
  }

  lemma WriteKeeps(original: seq<byte>, m: Machine, log: seq<Undo>, writes: seq<Undo>, s: Script, op: Operation)
    requires Kept(original, m, log, writes) && op.WriteOp? && PerformOne(m, log, s, op).ok
    ensures var p := PerformOne(m, log, s, op); Kept(original, p.machine, p.log, writes + Written(op))
  {
    hide PerformOne;
    OneFacts(m, log, s, op);
    var p := PerformOne(m, log, s, op);
    var u := p.log[|log|];
    assert p.log == log + [u];
    hide Touches, Coherent, WellFormed, Overwrite, Apply, Undoable, Logical, Sized;
    LoggedUndoable(original, m.disk, p.machine.disk, log, u, op.loc, |op.data|);
    ApplyPush(original, writes, Undo(op.loc, op.data));
    LogicalSize(m.disk, original, log);
    hide Replaces;
  }

  lemma LogicalSize(d: Disk, original: seq<byte>, log: seq<Undo>)
    requires Undoable(original, d, log, 0, 0)
    ensures |d.device| == |original|
  {
  }

  lemma OtherKeeps(original: seq<byte>, m: Machine, log: seq<Undo>, writes: seq<Undo>, s: Script, op: Operation)
    requires Kept(original, m, log, writes) && !op.WriteOp?
    ensures var p := PerformOne(m, log, s, op);
            if p.ok then Kept(original, p.machine, p.log, writes + Written(op))
            else Spoiled(original, p.machine, p.log, writes, op, Reach(m.disk))
  {
    hide PerformOne;
    OneFacts(m, log, s, op);
    var p := PerformOne(m, log, s, op);
    assert writes + [] == writes;
    LogicalKept(m.disk, p.machine.disk);
    TouchUndoable(original, m.disk, p.machine.disk, log, 0, 0);
    hide Touches, Coherent, WellFormed, Overwrite, Apply, Undoable, Logical, Reach;
  }

  lemma FailureSpoils(original: seq<byte>, m: Machine, log: seq<Undo>, writes: seq<Undo>, s: Script, op: Operation)
    requires Kept(original, m, log, writes) && op.WriteOp? && !PerformOne(m, log, s, op).ok
    ensures var p := PerformOne(m, log, s, op);
            Spoiled(original, p.machine, p.log, writes, op, Reach(m.disk))
  {
    hide PerformOne, Reach, Head;
    OneFacts(m, log, s, op);
    var p := PerformOne(m, log, s, op);
    var bs := m.disk.blockSize;
    var front := Front(op.data, Head(op.loc, |op.data|, bs));
    hide Touches, Coherent, Overwrite, Apply, Undoable, Logical, Blends;
    BlendsTouches(m.disk, p.machine.disk, op.loc, front);
    TouchUndoable(original, m.disk, p.machine.disk, log, op.loc, op.loc + |front|);
    if Harmless(original, writes, op, bs, Reach(m.disk)) {
      if |writes| < UNINSTALL_DATA_MAX && op.Fits(Reach(m.disk)) {
        forall i | op.loc <= i < op.loc + |front| && 0 <= i < |original|
          ensures CoveredBy(log, i) || front[i - op.loc] == original[i]
        {
          SameCovered(log, writes, i);
        }
        BlendUndoable(original, m.disk, p.machine.disk, log, op.loc, front);
      } else {
        TouchUndoable(original, m.disk, p.machine.disk, log, 0, 0);
      }
    }
    hide Inside, SameRanges;
  }

  lemma OneKeeps(original: seq<byte>, m: Machine, log: seq<Undo>, writes: seq<Undo>, s: Script, op: Operation)
    requires Kept(original, m, log, writes)
    ensures var p := PerformOne(m, log, s, op);
            if p.ok then Kept(original, p.machine, p.log, writes + Written(op))
            else Spoiled(original, p.machine, p.log, writes, op, Reach(m.disk))
  {
    if !op.WriteOp? {
      OtherKeeps(original, m, log, writes, s, op);
    } else if PerformOne(m, log, s, op).ok {
      WriteKeeps(original, m, log, writes, s, op);
    } else {
      FailureSpoils(original, m, log, writes, s, op);
    }
    hide PerformOne, Kept, Spoiled;
  }

  /** A run of operations: all of them kept, or the one that failed spoiled. */
  ghost predicate Ran(original: seq<byte>, m: Machine, log: seq<Undo>, writes: seq<Undo>, s: Script,
                      ops: seq<Operation>, r: Performed)
    requires Sized(m.disk)
  {
    && Sized(r.machine.disk) && r.done <= |ops| && m.tick <= r.machine.tick
    && SameShape(m.disk, r.machine.disk) && Reach(r.machine.disk) == Reach(m.disk)
    && AllInside(ops[..r.done], Reach(m.disk))
    && (r.done == |ops| ==> Kept(original, r.machine, r.log, writes + AllWritten(ops)))
    && (r.done < |ops| ==>
          Spoiled(original, r.machine, r.log, writes + AllWritten(ops[..r.done]), ops[r.done], Reach(m.disk)))
    && (Calm(s, m.tick) && AllInside(ops, Reach(m.disk)) && |writes| + |AllWritten(ops)| <= UNINSTALL_DATA_MAX ==>
          r.done == |ops|)
  }

  lemma {:induction false} AllKeeps(original: seq<byte>, m: Machine, log: seq<Undo>, writes: seq<Undo>, s: Script,
                                    ops: seq<Operation>)
    requires Kept(original, m, log, writes)
    ensures Ran(original, m, log, writes, s, ops, PerformAll(m, log, s, ops))
    decreases |ops|
  {
    assert Sized(m.disk);
    hide PerformOne, Kept, Spoiled, Ran, Sized;
    if ops == [] {
      RanNothing(original, m, log, writes, s);
    } else {
      OneKeeps(original, m, log, writes, s, ops[0]);
      var p := PerformOne(m, log, s, ops[0]);
      if p.ok {
        AllKeeps(original, p.machine, p.log, writes + Written(ops[0]), s, ops[1..]);
        RanMore(original, m, log, writes, s, ops, PerformAll(p.machine, p.log, s, ops[1..]));
      } else {
        RanOut(original, m, log, writes, s, ops);
      }
    }
  }

  lemma RanNothing(original: seq<byte>, m: Machine, log: seq<Undo>, writes: seq<Undo>, s: Script)
    requires Kept(original, m, log, writes)
    ensures Ran(original, m, log, writes, s, [], Performed(m, log, 0))
  {
    assert writes + [] == writes;
    hide Coherent, Logical, Undoable, SameRanges, Inside, Apply, WellFormed;
  }

  lemma RanOut(original: seq<byte>, m: Machine, log: seq<Undo>, writes: seq<Undo>, s: Script, ops: seq<Operation>)
    requires Kept(original, m, log, writes) && ops != [] && !PerformOne(m, log, s, ops[0]).ok
    requires var p := PerformOne(m, log, s, ops[0]);
             Spoiled(original, p.machine, p.log, writes, ops[0], Reach(m.disk))
    ensures var p := PerformOne(m, log, s, ops[0]);
            Ran(original, m, log, writes, s, ops, Performed(p.machine, p.log, 0))
  {
    hide PerformOne, Spoiled, Logical, Undoable, Inside, Apply, Reach, Touches, Blends, Overwrite, Replaces;
    OneFacts(m, log, s, ops[0]);
    assert ops[..0] == [] && AllWritten(ops[..0]) == [] && writes + [] == writes;
    assert |AllWritten(ops)| == |Written(ops[0])| + |AllWritten(ops[1..])|;
    hide AllWritten, SameRanges, Coherent, WellFormed;
  }

  lemma RanMore(original: seq<byte>, m: Machine, log: seq<Undo>, writes: seq<Undo>, s: Script, ops: seq<Operation>,
                rest: Performed)
    requires Kept(original, m, log, writes) && ops != [] && PerformOne(m, log, s, ops[0]).ok
    requires var p := PerformOne(m, log, s, ops[0]);
             Ran(original, p.machine, p.log, writes + Written(ops[0]), s, ops[1..], rest)
    ensures Ran(original, m, log, writes, s, ops, rest.(done := rest.done + 1))
  {
    Succeeds(original, m, log, writes, s, ops[0]);
    MoreWritten(writes, ops, rest.done);
    MoreInside(ops, rest.done, Reach(m.disk));
    hide PerformOne, Kept, Spoiled, Reach, AllInside, AllWritten, Written, Sized;
  }

  /** What goes on after an operation that succeeded. */
  lemma Succeeds(original: seq<byte>, m: Machine, log: seq<Undo>, writes: seq<Undo>, s: Script, op: Operation)
    requires Kept(original, m, log, writes) && PerformOne(m, log, s, op).ok
    ensures var p := PerformOne(m, log, s, op).machine;
            && SameShape(m.disk, p.disk) && Reach(p.disk) == Reach(m.disk) && m.tick <= p.tick && op.Fits(Reach(m.disk))
            && (Calm(s, m.tick) ==> Calm(s, p.tick))
  {
    OneFacts(m, log, s, op);
    hide PerformOne, Logical, Undoable, Inside, Apply, Reach, Touches, Blends, Overwrite, Replaces, Coherent, SameRanges,
      Sized;
  }

  lemma MoreInside(ops: seq<Operation>, n: nat, size: nat)
    requires ops != [] && ops[0].Fits(size) && n < |ops|
    ensures AllInside(ops[1..][..n], size) ==> AllInside(ops[..n + 1], size)
    ensures AllInside(ops, size) ==> AllInside(ops[1..], size)
  {
    assert ops[..n + 1] == [ops[0]] + ops[1..][..n];
  }

  lemma MoreWritten(writes: seq<Undo>, ops: seq<Operation>, n: nat)
    requires ops != [] && n < |ops|
    ensures writes + AllWritten(ops) == writes + Written(ops[0]) + AllWritten(ops[1..])
    ensures writes + AllWritten(ops[..n + 1]) == writes + Written(ops[0]) + AllWritten(ops[1..][..n])
    ensures |AllWritten(ops)| == |Written(ops[0])| + |AllWritten(ops[1..])|
  {
    hide *;
    NextWritten(writes, ops, ops[0], ops[1..]);
    NextWritten(writes, ops[..n + 1], ops[0], ops[1..][..n]);
  }

  lemma NextWritten(writes: seq<Undo>, ops: seq<Operation>, op: Operation, rest: seq<Operation>)
    requires ops == [op] + rest
    ensures writes + AllWritten(ops) == writes + Written(op) + AllWritten(rest)
    ensures |AllWritten(ops)| == |Written(op)| + |AllWritten(rest)|
  {
    assert ops[1..] == rest;
  }
}
