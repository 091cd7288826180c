/** Cylinder, head and sector of a block, as three bytes of a partition table entry. */
module ChsAddresses {
  import opened Multiples

  const HEADS := 255
  const SECTORS := 63
  const CYLINDERS := 1024

  /** The number of blocks a CHS address can name. */
  const BLOCKS := CYLINDERS * HEADS * SECTORS

  datatype Chs = Chs(first: nat, second: nat, third: nat)

  const TOO_BIG := Chs(0xfe, 0xff, 0xff)

  /** The second byte holds the two high bits of the cylinder above the six of the sector. */
  function Lba2Chs(lba: nat): Chs {
    if lba > SECTORS * HEADS * CYLINDERS then TOO_BIG
    else
      var cylinder := lba / (HEADS * SECTORS);
      if cylinder >= CYLINDERS then TOO_BIG
      else
        var head := (lba / SECTORS) % HEADS;
        var sector := lba % SECTORS + 1;
        Chs(head, cylinder / 4 / 64 % 4 * 64 + sector % 64, cylinder % 256)
  }

  /** How firmware reads the three bytes. */
  function Chs2Lba(chs: Chs): int {
    var cylinder := chs.second / 64 * 256 + chs.third;
    (cylinder * HEADS + chs.first) * SECTORS + (chs.second % 64 - 1)
  }

  /** Head and sector of a block, and the cylinder they lie on. */
  lemma HeadAndSector(lba: nat)
    ensures var cylinder, head, sector := lba / (HEADS * SECTORS), (lba / SECTORS) % HEADS, lba % SECTORS;
            lba == (cylinder * HEADS + head) * SECTORS + sector && 0 <= head < HEADS && 0 <= sector < SECTORS
  {
    var q := lba / SECTORS;
    var head, sector := q % HEADS, lba % SECTORS;
    assert q == HEADS * (q / HEADS) + head && lba == SECTORS * q + sector;
    DivisionUnique(lba, HEADS * SECTORS, q / HEADS, head * SECTORS + sector);
  }

  /** The high bits of a cylinder and the sector share a byte. */
  lemma SharedByte(cylinder: nat, sector: nat)
    requires cylinder < CYLINDERS && sector < SECTORS
    ensures var second := cylinder / 4 / 64 % 4 * 64 + (sector + 1) % 64;
            && second / 64 * 256 + cylinder % 256 == cylinder
            && second % 64 == sector + 1
            && second < 256
  {
    assert cylinder / 4 / 64 == cylinder / 256 < 4;
    DivisionUnique(cylinder / 256 * 64 + (sector + 1), 64, cylinder / 256, sector + 1);
  }

  /** A block is below the limit exactly when its cylinder is. */
  lemma CylinderLimit(lba: nat)
    ensures lba < BLOCKS <==> lba / (HEADS * SECTORS) < CYLINDERS
  {
  }

  /** Every block below the limit is named exactly, every other one by the last address. */
  lemma DecodesOrSaturates(lba: nat)
    ensures Chs2Lba(Lba2Chs(lba)) == if lba < BLOCKS then lba else BLOCKS - 1
  {
    CylinderLimit(lba);
    if lba < BLOCKS {
      HeadAndSector(lba);
      SharedByte(lba / (HEADS * SECTORS), lba % SECTORS);
    } else {
      assert Lba2Chs(lba) == TOO_BIG;
    }
  }

  /** The three numbers are bytes, and the sector is never zero. */
  lemma FieldsFit(lba: nat)
    ensures var chs := Lba2Chs(lba);
            chs.first < HEADS && chs.second < 256 && chs.third < 256 && 1 <= chs.second % 64
  {
    CylinderLimit(lba);
    if lba < BLOCKS {
      HeadAndSector(lba);
      SharedByte(lba / (HEADS * SECTORS), lba % SECTORS);
    }
  }
}
