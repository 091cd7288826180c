/** A block device behind a cache of one block that may be dirty, as plain values: what the
    pair stands for, what a call may do to it, and how a log of old bytes undoes writes. */
module DiskModel {
  newtype byte = x: int | 0 <= x < 256

  /** The bytes `d` with `data` written at `loc`; what does not fit is dropped. */
  function Overwrite(d: seq<byte>, loc: int, data: seq<byte>): (r: seq<byte>)
    ensures |r| == |d|
  {
    seq(|d|, i requires 0 <= i < |d| => if loc <= i < loc + |data| then data[i - loc] else d[i])
  }

  /** `device` is the medium; `block` is the number of the cached block, or -1. */
  datatype Disk = Disk(device: seq<byte>, blockSize: nat, blocks: nat, cache: seq<byte>, dirty: bool, block: int)

  predicate WellFormed(d: Disk) {
    && d.blockSize > 0
    && |d.cache| == d.blockSize
    && d.blocks * d.blockSize <= |d.device|
    && -1 <= d.block < d.blocks
    && (d.dirty ==> d.block >= 0)
  }

  /** The bytes the device stands for: a dirty block is in the cache only. */
  function Logical(d: Disk): (r: seq<byte>)
    ensures |r| == |d.device|
  {
    if d.dirty then Overwrite(d.device, d.block * d.blockSize, d.cache) else d.device
  }

  /** A clean cached block equals the block on the device. */
  predicate Coherent(d: Disk) {
    !d.dirty && d.block >= 0 ==>
      forall i | 0 <= i < |d.cache| && d.block * d.blockSize + i < |d.device| ::
        d.cache[i] == d.device[d.block * d.blockSize + i]
  }

  predicate Outside(i: int, lo: int, hi: int) {
    i < lo || hi <= i
  }

  /** From `s` to `t` logical bytes changed only in [lo, hi), and elsewhere every byte on the
      device is the one that was there or the logical one. */
  predicate Touches(s: Disk, t: Disk, lo: int, hi: int) {
    && |t.device| == |s.device| && t.blockSize == s.blockSize && t.blocks == s.blocks
    && (forall i | 0 <= i < |s.device| && Outside(i, lo, hi) ::
          Logical(t)[i] == Logical(s)[i] && (t.device[i] == s.device[i] || t.device[i] == Logical(s)[i]))
  }

  /** No logical byte changed. */
  predicate Flushes(s: Disk, t: Disk) {
    Touches(s, t, 0, 0)
  }

  lemma TouchesThen(s: Disk, t: Disk, u: Disk, lo: int, hi: int)
    requires Touches(s, t, lo, hi) && Touches(t, u, lo, hi)
    ensures Touches(s, u, lo, hi)
  {
    hide Logical;
  }

  lemma FlushesTouches(s: Disk, t: Disk, lo: int, hi: int)
    requires Flushes(s, t)
    ensures Touches(s, t, lo, hi)
    ensures Logical(t) == Logical(s)
  {
    hide Logical;
  }

  // ---- the undo log ---------------------------------------------------------

  /** The bytes a write replaced. */
  datatype Undo = Undo(loc: nat, data: seq<byte>)

  function Apply(d: seq<byte>, log: seq<Undo>): (r: seq<byte>)
    ensures |r| == |d|
    decreases |log|
  {
    if log == [] then d else Apply(Overwrite(d, log[0].loc, log[0].data), log[1..])
  }

  function Reverse(log: seq<Undo>): (r: seq<Undo>)
    ensures |r| == |log|
  {
    if log == [] then [] else Reverse(log[1..]) + [log[0]]
  }

  predicate Covers(u: Undo, i: int) {
    u.loc <= i < u.loc + |u.data|
  }

  /** The byte that undoing leaves at `i`: the oldest logged one, or else the one that is there. */
  function Restored(log: seq<Undo>, i: int, current: byte): byte {
    if log == [] then current
    else if Covers(log[0], i) then log[0].data[i - log[0].loc]
    else Restored(log[1..], i, current)
  }

  lemma {:induction false} ApplyConcat(d: seq<byte>, a: seq<Undo>, b: seq<Undo>)
    ensures Apply(d, a + b) == Apply(Apply(d, a), b)
    decreases |a|
  {
    if a == [] {
      assert a + b == b;
    } else {
      assert (a + b)[1..] == a[1..] + b;
      ApplyConcat(Overwrite(d, a[0].loc, a[0].data), a[1..], b);
      hide Overwrite;
    }
  }

  lemma ApplyPush(d: seq<byte>, log: seq<Undo>, u: Undo)
    ensures Apply(d, log + [u]) == Overwrite(Apply(d, log), u.loc, u.data)
  {
    ApplyConcat(d, log, [u]);
    assert Apply(Apply(d, log), [u]) == Apply(Overwrite(Apply(d, log), u.loc, u.data), []);
  }

  /** The entries that hold bytes lie on the device. */
  predicate Inside(log: seq<Undo>, size: nat) {
    forall k | 0 <= k < |log| :: log[k].data == [] || log[k].loc + |log[k].data| <= size
  }

  /** Applying the reversed log gives each byte its oldest logged value. */
  lemma {:induction false} ApplyReversed(d: seq<byte>, log: seq<Undo>, i: nat)
    requires i < |d|
    ensures Apply(d, Reverse(log))[i] == Restored(log, i, d[i])
  {
    if log != [] {
      ApplyReversed(d, log[1..], i);
      ApplyConcat(d, Reverse(log[1..]), [log[0]]);
      assert Apply(Apply(d, Reverse(log[1..])), [log[0]])
          == Apply(Overwrite(Apply(d, Reverse(log[1..])), log[0].loc, log[0].data), []);
    }
  }

  lemma {:induction false} RestoredPush(log: seq<Undo>, u: Undo, i: int, current: byte)
    ensures Restored(log + [u], i, current)
         == Restored(log, i, if Covers(u, i) then u.data[i - u.loc] else current)
  {
    if log == [] {
      assert (log + [u])[1..] == [];
    } else {
      assert (log + [u])[1..] == log[1..] + [u];
      RestoredPush(log[1..], u, i, current);
    }
  }

  /** Undoing would give every byte outside the range [lo, hi) its original value, whether
      the dirty block reaches the device or not. */
  predicate Undoable(original: seq<byte>, d: Disk, log: seq<Undo>, lo: int, hi: int) {
    && |d.device| == |original|
    && (forall i | 0 <= i < |original| && Outside(i, lo, hi) ::
          Restored(log, i, d.device[i]) == original[i] && Restored(log, i, Logical(d)[i]) == original[i])
  }

  /** A logged write keeps every byte undoable. */
  lemma WriteUndoable(original: seq<byte>, s: Disk, t: Disk, log: seq<Undo>, u: Undo)
    requires Undoable(original, s, log, 0, 0) && Touches(s, t, u.loc, u.loc + |u.data|)
    requires u.loc + |u.data| <= |s.device| && u.data == Logical(s)[u.loc..u.loc + |u.data|]
    ensures Undoable(original, t, log + [u], 0, 0)
  {
    forall i | 0 <= i < |original|
      ensures Restored(log + [u], i, t.device[i]) == original[i]
      ensures Restored(log + [u], i, Logical(t)[i]) == original[i]
    {
      RestoredPush(log, u, i, t.device[i]);
      RestoredPush(log, u, i, Logical(t)[i]);
      if Covers(u, i) {
        assert u.data[i - u.loc] == Logical(s)[i];
      }
      hide Restored, Logical;
    }
    hide Restored, Logical;
  }

  /** A step that logs nothing keeps every byte undoable that it does not write. */
  lemma TouchUndoable(original: seq<byte>, s: Disk, t: Disk, log: seq<Undo>, lo: int, hi: int)
    requires Undoable(original, s, log, 0, 0) && Touches(s, t, lo, hi)
    ensures Undoable(original, t, log, lo, hi)
  {
    hide Restored, Logical;
  }

  /** Undoing on the bare device, with the cache dropped, restores the original. */
  lemma UndoRestores(original: seq<byte>, d: Disk, log: seq<Undo>, lo: int, hi: int)
    requires Undoable(original, d, log, lo, hi)
    ensures forall i | 0 <= i < |original| && Outside(i, lo, hi) :: Apply(d.device, Reverse(log))[i] == original[i]
  {
    forall i | 0 <= i < |original| && Outside(i, lo, hi)
      ensures Apply(d.device, Reverse(log))[i] == original[i]
    {
      ApplyReversed(d.device, log, i);
      hide Apply, Restored, Logical, Reverse;
    }
    hide Apply, Restored, Logical, Reverse;
  }
}
