/** Exactly when the last writes of an installation are undone completely after a failure. */
module BootFaults {
  import opened Multiples
  import opened DiskModel
  import opened CacheModel
  import opened InstallModel
  import opened InstallFaults
  import opened UndoFiles
  import opened BootSectors

  /** Where the last block that stage 2 reaches begins, as a position in the device. */
  function LastBlockOf(image: seq<byte>, stage2: nat, blockSize: nat): (end: nat)
    requires |image| >= SECTOR && blockSize > 0
    ensures stage2 <= end <= stage2 + (|image| - SECTOR)
  {
    stage2 + Head(stage2, |image| - SECTOR, blockSize)
  }

  /** Stage 2 does not fit, or every byte of it before its last block is on the device already or
      covers sector 0, which an earlier write has saved. */
  predicate StageTwoHarmless(d: seq<byte>, image: seq<byte>, stage2: nat, blockSize: nat)
    requires |image| >= SECTOR && blockSize > 0
  {
    |image| == SECTOR || stage2 + (|image| - SECTOR) <= |d| / blockSize * blockSize ==>
      forall i | SECTOR <= i < |d| && stage2 <= i < LastBlockOf(image, stage2, blockSize) ::
        image[SECTOR + (i - stage2)] == d[i]
  }

  /** A write inside the first sector lies in one block. */
  lemma InsideSector(loc: nat, data: seq<byte>, blockSize: nat)
    requires loc + |data| <= SECTOR <= blockSize
    ensures WriteOp(loc, data).RiskEnd(blockSize) == loc
  {
    if data != [] {
      DivisionUnique(loc, blockSize, 0, loc);
      HeadNext(loc, |data|, blockSize);
      hide Head;
    }
  }

  /** The operations before stage 2 write sector 0, and all of them fit. */
  lemma BeforeStageTwo(d: seq<byte>, image: seq<byte>, stage2: nat, reach: nat)
    requires |image| >= SECTOR && |d| >= SECTOR && reach >= SECTOR
    ensures var ops := StageOperations(d, image, stage2);
            && AllWritten(ops[..3]) == [Undo(0, image[..SECTOR])]
            && Attempted(ops, 3, reach)
  {
    var ops := StageOperations(d, image, stage2);
    assert ops[..3] == [ops[0], ops[1], ops[2]];
    assert ops[..3][1..] == [ops[1], ops[2]] && ops[..3][1..][1..] == [ops[2]] && ops[..3][1..][1..][1..] == [];
    assert AllWritten(ops[..3]) == AllWritten([ops[1], ops[2]]) == AllWritten([ops[2]]) == Written(ops[2]) + AllWritten([]);
  }

  lemma SectorCovered(boot: seq<byte>, i: nat)
    requires |boot| == SECTOR
    ensures CoveredBy([Undo(0, boot)], i) <==> i < SECTOR
  {
    var log := [Undo(0, boot)];
    if i < SECTOR {
      assert Covers(log[0], i);
    }
  }

  /** Stage 2 is the only operation that can spoil anything, and this is when it does not. */
  lemma StageTwoRisk(d: seq<byte>, image: seq<byte>, stage2: nat, blockSize: nat)
    requires |image| >= SECTOR && SECTOR <= blockSize <= |d|
    ensures Harmless(d, [Undo(0, image[..SECTOR])], StageOperations(d, image, stage2)[3], blockSize,
                     |d| / blockSize * blockSize)
       <==> StageTwoHarmless(d, image, stage2, blockSize)
  {
    var op := WriteOp(stage2, image[SECTOR..]);
    var writes := [Undo(0, image[..SECTOR])];
    forall i: nat
      ensures CoveredBy(writes, i) <==> i < SECTOR
    {
      SectorCovered(image[..SECTOR], i);
    }
    assert op.RiskEnd(blockSize) == LastBlockOf(image, stage2, blockSize);
    hide CoveredBy, LastBlockOf, Encode;
  }

  /** The other operations lie in the first sector. */
  lemma OthersHarmless(d: seq<byte>, image: seq<byte>, stage2: nat, blockSize: nat, k: nat, writes: seq<Undo>)
    requires |image| >= SECTOR && SECTOR <= blockSize <= |d| && k < 7 && k != 3
    ensures Harmless(d, writes, StageOperations(d, image, stage2)[k], blockSize, |d| / blockSize * blockSize)
  {
    var op := StageOperations(d, image, stage2)[k];
    if op.WriteOp? {
      InsideSector(op.loc, op.data, blockSize);
    }
    hide Encode, CoveredBy, Head;
  }

  lemma WholeBlocks(size: nat, blockSize: nat)
    requires 0 < blockSize <= size
    ensures blockSize <= size / blockSize * blockSize <= size
  {
    var q := size / blockSize;
    assert size == blockSize * q + size % blockSize;
    if q == 0 {
      assert false;
    }
  }

  lemma StagesRecoverable(d: seq<byte>, image: seq<byte>, stage2: nat, blockSize: nat)
    requires |image| >= SECTOR && SECTOR <= blockSize <= |d|
    ensures Recoverable(d, blockSize, |d| / blockSize * blockSize, StageOperations(d, image, stage2))
       <==> StageTwoHarmless(d, image, stage2, blockSize)
  {
    var ops, reach := StageOperations(d, image, stage2), |d| / blockSize * blockSize;
    WholeBlocks(|d|, blockSize);
    BeforeStageTwo(d, image, stage2, reach);
    StageTwoRisk(d, image, stage2, blockSize);
    assert |ops| == 7;
    forall k | 0 <= k < |ops| && k != 3
      ensures Harmless(d, AllWritten(ops[..k]), ops[k], blockSize, reach)
    {
      OthersHarmless(d, image, stage2, blockSize, k, AllWritten(ops[..k]));
    }
    hide StageOperations, Harmless, Attempted, AllWritten, StageTwoHarmless;
  }

  /** The last writes of an installation on a fresh device of any block size of at least a sector,
      with stage 2 anywhere: a failure is undone completely under every script if and only if
      stage 2 does not fit, or changes no byte outside sector 0 before its last block. */
  lemma StagesUndone(d: seq<byte>, image: seq<byte>, stage2: nat, blockSize: nat)
    requires |image| >= SECTOR && SECTOR <= blockSize <= |d|
    ensures var m, ops := Fresh(d, blockSize), StageOperations(d, image, stage2);
            && Sized(m.disk)
            && ((forall s: Script :: Restores(m, s, ops)) <==> StageTwoHarmless(d, image, stage2, blockSize))
            && (!StageTwoHarmless(d, image, stage2, blockSize) ==> exists s: Script :: Spoils(m, s, ops))
  {
    FreshStarts(d, blockSize);
    StagesRecoverable(d, image, stage2, blockSize);
    assert Reach(Fresh(d, blockSize).disk) == |d| / blockSize * blockSize;
    hide Recoverable, StageOperations, StageTwoHarmless, Restores, Spoils, Reach, Coherent;
    UndoneCompletely(Fresh(d, blockSize), StageOperations(d, image, stage2));
  }

  /** With sectors of 512 bytes and stage 2 right after sector 0, where the installer puts it on a
      disk without partitions in the way, one differing byte before its last sector is enough. */
  lemma StagesSpoiled(d: seq<byte>, image: seq<byte>, i: nat) returns (s: Script)
    requires |d| >= SECTOR && |image| >= SECTOR && |image| <= |d| / SECTOR * SECTOR
    requires SECTOR <= i < LastBlockOf(image, SECTOR, SECTOR) && i < |d| && image[i] != d[i]
    ensures Sized(Fresh(d, SECTOR).disk) && Spoils(Fresh(d, SECTOR), s, StageOperations(d, image, SECTOR))
  {
    StagesUndone(d, image, SECTOR, SECTOR);
    assert !StageTwoHarmless(d, image, SECTOR, SECTOR) by {
      assert image[SECTOR + (i - SECTOR)] != d[i];
      hide LastBlockOf;
    }
    hide *;
    s :| Spoils(Fresh(d, SECTOR), s, StageOperations(d, image, SECTOR));
  }
}
