/** The last writes of an installation: boot sector, stage 2, and the bytes put back. */
module BootSectors {
  import opened DiskModel
  import opened CacheModel
  import opened BlockCaches
  import opened UndoFiles
  import opened InstallModel

  const SECTOR := 512
  const TIMESTAMP := 218
  const TIMESTAMP_SIZE := 6
  const TABLE := 440
  const TABLE_SIZE := 70
  /** Where the boot sector expects the location of stage 2. */
  const STAGE2_FIELD := 0x1a4

  /** The device after the five writes. */
  function Installed(d: seq<byte>, image: seq<byte>, stage2: nat): seq<byte>
    requires |image| >= SECTOR && |d| >= SECTOR
  {
    var boot := Overwrite(d, 0, image[..SECTOR]);
    var stages := Overwrite(boot, stage2, image[SECTOR..]);
    var located := Overwrite(stages, STAGE2_FIELD, Encode(stage2, 8));
    var stamped := Overwrite(located, TIMESTAMP, d[TIMESTAMP..TIMESTAMP + TIMESTAMP_SIZE]);
    Overwrite(stamped, TABLE, d[TABLE..TABLE + TABLE_SIZE])
  }

  /** The bytes of sector 0 that are saved and put back. */
  predicate PutBackByte(i: nat) {
    TIMESTAMP <= i < TIMESTAMP + TIMESTAMP_SIZE || TABLE <= i < TABLE + TABLE_SIZE
  }

  /** With stage 2 clear of sector 0, sector 0 keeps its time stamp and partition table, names
      the location of stage 2, and is the image everywhere else; stage 2 is the rest of the
      image; no other byte changes. */
  lemma InstalledBytes(d: seq<byte>, image: seq<byte>, stage2: nat)
    requires |image| >= SECTOR && |d| >= SECTOR && stage2 >= SECTOR
    ensures var r := Installed(d, image, stage2);
            && |r| == |d|
            && (forall i | 0 <= i < SECTOR && PutBackByte(i) :: r[i] == d[i])
            && (forall i | 0 <= i < SECTOR && !PutBackByte(i) && !(STAGE2_FIELD <= i < STAGE2_FIELD + 8) ::
                  r[i] == image[i])
            && r[STAGE2_FIELD..STAGE2_FIELD + 8] == Encode(stage2, 8)
            && (forall i | SECTOR <= i < |d| ::
                  r[i] == if stage2 <= i < stage2 + (|image| - SECTOR) then image[SECTOR + (i - stage2)] else d[i])
  {
    hide Encode;
  }

  /** The location read back from the boot sector is where stage 2 was written. */
  lemma Stage2Found(d: seq<byte>, image: seq<byte>, stage2: nat)
    requires |image| >= SECTOR && |d| >= SECTOR && SECTOR <= stage2 < U64
    ensures Decode(Installed(d, image, stage2)[STAGE2_FIELD..STAGE2_FIELD + 8]) == stage2
  {
    InstalledBytes(d, image, stage2);
    Power256Of8();
    DecodeEncode(stage2, 8);
    hide Encode, Decode, Installed, Power256;
  }

  /** The bytes of sector 0 that are neither put back nor the location of stage 2. */
  predicate BootCode(i: nat) {
    i < SECTOR && !PutBackByte(i) && !(STAGE2_FIELD <= i < STAGE2_FIELD + 8)
  }

  /** Wherever stage 2 goes: the boot code is the image's if and only if stage 2 has the image's
      own bytes wherever it covers boot code.  The saved bytes are put back in any case. */
  lemma BootCodeSurvives(d: seq<byte>, image: seq<byte>, stage2: nat)
    requires |image| >= SECTOR && |d| >= SECTOR
    ensures (forall i | 0 <= i < SECTOR && BootCode(i) :: Installed(d, image, stage2)[i] == image[i])
       <==> (forall i | 0 <= i < SECTOR && BootCode(i) && stage2 <= i < stage2 + (|image| - SECTOR) ::
               image[SECTOR + (i - stage2)] == image[i])
    ensures forall i | 0 <= i < SECTOR && PutBackByte(i) :: Installed(d, image, stage2)[i] == d[i]
  {
    forall i | 0 <= i < SECTOR && BootCode(i)
      ensures Installed(d, image, stage2)[i]
           == if stage2 <= i < stage2 + (|image| - SECTOR) then image[SECTOR + (i - stage2)] else image[i]
    {
      hide Encode;
    }
    hide Encode;
    assert forall i | 0 <= i < SECTOR && PutBackByte(i) :: Installed(d, image, stage2)[i] == d[i];
    hide Installed, BootCode;
  }

  /** The same steps as a list of operations, for undoing. */
  function StageOperations(d: seq<byte>, image: seq<byte>, stage2: nat): seq<Operation>
    requires |image| >= SECTOR && |d| >= SECTOR
  {
    [ReadOp(TIMESTAMP, TIMESTAMP_SIZE), ReadOp(TABLE, TABLE_SIZE),
     WriteOp(0, image[..SECTOR]), WriteOp(stage2, image[SECTOR..]), WriteOp(STAGE2_FIELD, Encode(stage2, 8)),
     WriteOp(TIMESTAMP, d[TIMESTAMP..TIMESTAMP + TIMESTAMP_SIZE]), WriteOp(TABLE, d[TABLE..TABLE + TABLE_SIZE])]
  }

  function AfterOne(d: seq<byte>, op: Operation): seq<byte> {
    if op.WriteOp? then Overwrite(d, op.loc, op.data) else d
  }

  /** The device after the operations, one by one. */
  function AfterAll(d: seq<byte>, ops: seq<Operation>): seq<byte>
    decreases |ops|
  {
    if ops == [] then d else AfterAll(AfterOne(d, ops[0]), ops[1..])
  }

  lemma {:induction false} WrittenOneByOne(d: seq<byte>, ops: seq<Operation>)
    ensures Apply(d, AllWritten(ops)) == AfterAll(d, ops)
    decreases |ops|
  {
    hide Overwrite;
    if ops != [] {
      WrittenOneByOne(AfterOne(d, ops[0]), ops[1..]);
      if ops[0].WriteOp? {
        assert AllWritten(ops)[1..] == AllWritten(ops[1..]);
      } else {
        assert AllWritten(ops) == AllWritten(ops[1..]);
      }
    }
  }

  lemma SevenOperations(d: seq<byte>, a: Operation, b: Operation, boot: Operation, stages: Operation,
                        location: Operation, stamp: Operation, table: Operation)
    requires a.ReadOp? && b.ReadOp?
    ensures AfterAll(d, [a, b, boot, stages, location, stamp, table])
         == AfterOne(AfterOne(AfterOne(AfterOne(AfterOne(d, boot), stages), location), stamp), table)
  {
    hide Overwrite;
    assert AfterOne(d, a) == d && AfterOne(d, b) == d;
    assert [a, b, boot, stages, location, stamp, table][1..] == [b, boot, stages, location, stamp, table];
    assert [b, boot, stages, location, stamp, table][1..] == [boot, stages, location, stamp, table];
    assert [boot, stages, location, stamp, table][1..] == [stages, location, stamp, table];
    assert [stages, location, stamp, table][1..] == [location, stamp, table];
    assert [location, stamp, table][1..] == [stamp, table];
    assert [stamp, table][1..] == [table];
    var s1 := AfterOne(d, boot);
    var s2 := AfterOne(s1, stages);
    var s3 := AfterOne(s2, location);
    var s4 := AfterOne(s3, stamp);
    hide AfterOne;
    assert AfterAll(d, [b, boot, stages, location, stamp, table]) == AfterAll(d, [boot, stages, location, stamp, table]);
    assert AfterAll(s1, [stages, location, stamp, table]) == AfterAll(s2, [location, stamp, table]);
    assert AfterAll(s3, [stamp, table]) == AfterAll(s4, [table]);
    assert [table][1..] == [] && AfterAll(s4, [table]) == AfterOne(s4, table);
    assert AfterAll(d, [a, b, boot, stages, location, stamp, table])
        == AfterAll(d, [b, boot, stages, location, stamp, table]);
  }

  /** What the operations write, applied in order, is the installed device: every claim about
      undoing a list of operations is one about undoing these. */
  lemma StagesAreOperations(d: seq<byte>, image: seq<byte>, stage2: nat)
    requires |image| >= SECTOR && |d| >= SECTOR
    ensures Apply(d, AllWritten(StageOperations(d, image, stage2))) == Installed(d, image, stage2)
  {
    hide Encode, Overwrite, AllWritten, Apply, AfterAll;
    WrittenOneByOne(d, StageOperations(d, image, stage2));
    SevenOperations(d, ReadOp(TIMESTAMP, TIMESTAMP_SIZE), ReadOp(TABLE, TABLE_SIZE),
                    WriteOp(0, image[..SECTOR]), WriteOp(stage2, image[SECTOR..]), WriteOp(STAGE2_FIELD, Encode(stage2, 8)),
                    WriteOp(TIMESTAMP, d[TIMESTAMP..TIMESTAMP + TIMESTAMP_SIZE]),
                    WriteOp(TABLE, d[TABLE..TABLE + TABLE_SIZE]));
  }

  /** A read of the installer, which goes on only if it succeeds. */
  method Read(c: BlockCache, loc: nat, count: nat) returns (ok: bool, bytes: seq<byte>)
    requires c.Valid() && !c.uninstalling && Coherent(c.Model()) && count > 0
    modifies c`device, c`dirty, c`cachedBlock, c`tick, c.cache
    ensures c.Valid() && |c.device| == |old(c.device)|
    ensures ok ==> Coherent(c.Model()) && Logical(c.Model()) == Logical(old(c.Model()))
    ensures ok ==> |bytes| == count && loc + count <= |c.device| && bytes == Logical(old(c.Model()))[loc..loc + count]
  {
    ghost var m := c.State();
    ReadFacts(m, c.script, loc, count);
    LogicalKept(m.disk, ReadRange(m, c.script, loc, count).machine.disk);
    ok, bytes := c.DeviceRead(loc, count);
    hide ReadRange, Logical, Coherent, Touches;
  }

  /** A write of the installer. */
  method Write(c: BlockCache, data: seq<byte>, loc: nat) returns (ok: bool)
    requires c.Valid() && !c.uninstalling && Coherent(c.Model())
    modifies c`device, c`dirty, c`cachedBlock, c`tick, c`uninstallDataCount, c.cache, c.uninstallData
    ensures c.Valid() && |c.device| == |old(c.device)|
    ensures ok ==> Coherent(c.Model()) && Logical(c.Model()) == Overwrite(Logical(old(c.Model())), loc, data)
    ensures ok ==> (data == [] || loc + |data| <= |c.device|) && |c.Log()| == |old(c.Log())| + 1
  {
    LoggedFacts(c.State(), c.Log(), c.script, loc, data);
    ok := c.DeviceWrite(data, loc);
    hide LoggedWrite, Logical, Coherent, Touches, Blends, Overwrite, Replaces;
  }

  /** The device with the boot sector, stage 2 and its location written. */
  function Located(d: seq<byte>, image: seq<byte>, stage2: nat): seq<byte>
    requires |image| >= SECTOR
  {
    Overwrite(Overwrite(Overwrite(d, 0, image[..SECTOR]), stage2, image[SECTOR..]), STAGE2_FIELD, Encode(stage2, 8))
  }

  method WriteStages(c: BlockCache, image: seq<byte>, stage2: nat) returns (ok: bool)
    requires c.Valid() && !c.uninstalling && Coherent(c.Model()) && |image| >= SECTOR
    modifies c`device, c`dirty, c`cachedBlock, c`tick, c`uninstallDataCount, c.cache, c.uninstallData
    ensures c.Valid() && |c.device| == |old(c.device)|
    ensures ok ==> SECTOR <= |c.device| && Coherent(c.Model()) && |c.Log()| == |old(c.Log())| + 3
    ensures ok ==> Logical(c.Model()) == Located(Logical(old(c.Model())), image, stage2)
  {
    hide Logical, Coherent, WellFormed, Overwrite, Encode, Sized;
    ok := Write(c, image[..SECTOR], 0);
    if ok {
      ok := Write(c, image[SECTOR..], stage2);
      if ok {
        ok := Write(c, Encode(stage2, 8), STAGE2_FIELD);
      }
    }
  }

  method PutBack(c: BlockCache, timestamp: seq<byte>, table: seq<byte>) returns (ok: bool)
    requires c.Valid() && !c.uninstalling && Coherent(c.Model())
    modifies c`device, c`dirty, c`cachedBlock, c`tick, c`uninstallDataCount, c.cache, c.uninstallData
    ensures c.Valid() && |c.device| == |old(c.device)|
    ensures ok ==> !c.dirty && |c.Log()| == |old(c.Log())| + 2
    ensures ok ==> c.device == Overwrite(Overwrite(Logical(old(c.Model())), TIMESTAMP, timestamp), TABLE, table)
  {
    hide Logical, Coherent, WellFormed, Overwrite, Flush, Flushes, Sized;
    ok := Write(c, timestamp, TIMESTAMP);
    if ok {
      ok := Write(c, table, TABLE);
      if ok {
        ok := c.FlushCache();
      }
    }
  }

  /** The writes as the installer makes them, each one logged for undoing. */
  method InstallStages(c: BlockCache, image: seq<byte>, stage2: nat) returns (ok: bool)
    requires c.Valid() && !c.uninstalling && Coherent(c.Model()) && |image| >= SECTOR
    modifies c`device, c`dirty, c`cachedBlock, c`tick, c`uninstallDataCount, c.cache, c.uninstallData
    ensures c.Valid() && |c.device| == |old(c.device)|
    ensures ok ==> |old(c.device)| >= SECTOR
    ensures ok ==> c.device == Installed(Logical(old(c.Model())), image, stage2) && !c.dirty
    ensures ok ==> |c.Log()| == |old(c.Log())| + 5
  {
    hide Logical, Coherent, WellFormed, Overwrite, Encode, Sized;
    var timestamp, table;
    ok, timestamp := Read(c, TIMESTAMP, TIMESTAMP_SIZE);
    if ok {
      ok, table := Read(c, TABLE, TABLE_SIZE);
      if ok {
        ok := WriteStages(c, image, stage2);
        if ok {
          ok := PutBack(c, timestamp, table);
        }
      }
    }
  }
}
