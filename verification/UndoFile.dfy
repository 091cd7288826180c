/** The file that keeps the undo log between an install and a later uninstall. */
module UndoFiles {
  import opened Multiples
  import opened Options
  import opened DiskModel
  import opened CacheModel
  import opened BlockCaches

  const U64 := 0x1_0000_0000_0000_0000

  function Power256(n: nat): nat {
    if n == 0 then 1 else 256 * Power256(n - 1)
  }

  /** `n` bytes of `x`, the lowest first. */
  function Encode(x: nat, n: nat): (r: seq<byte>)
    ensures |r| == n
  {
    if n == 0 then [] else [(x % 256) as byte] + Encode(x / 256, n - 1)
  }

  function Decode(b: seq<byte>): nat {
    if b == [] then 0 else b[0] as nat + 256 * Decode(b[1..])
  }

  lemma {:induction false} DecodeEncode(x: nat, n: nat)
    requires x < Power256(n)
    ensures Decode(Encode(x, n)) == x
  {
    if n > 0 {
      DecodeEncode(x / 256, n - 1);
      assert Encode(x, n)[1..] == Encode(x / 256, n - 1);
    }
  }

  lemma {:induction false} EncodeDecode(b: seq<byte>)
    ensures Encode(Decode(b), |b|) == b && Decode(b) < Power256(|b|)
  {
    if b != [] {
      EncodeDecode(b[1..]);
      assert b == [b[0]] + b[1..];
    }
  }

  /** Numbers are stored with the lowest byte first. */
  lemma {:induction false} EncodedByte(x: nat, n: nat, k: nat)
    requires k < n
    ensures Power256(k) > 0 && Encode(x, n)[k] as nat == x / Power256(k) % 256
    decreases k
  {
    if k > 0 {
      EncodedByte(x / 256, n - 1, k - 1);
      DividedTwice(x, Power256(k - 1));
      assert Encode(x, n)[k] == Encode(x / 256, n - 1)[k - 1];
      hide Encode;
    }
  }

  lemma DividedTwice(x: nat, p: nat)
    requires p > 0
    ensures x / (256 * p) == x / 256 / p
  {
    var q, a, b := x / 256, x / 256 / p, x / 256 % p;
    assert x == 256 * q + x % 256 && q == p * a + b;
    assert 256 * (p * a) == 256 * p * a;
    DivisionUnique(x, 256 * p, a, 256 * b + x % 256);
  }

  lemma Power256Of8()
    ensures Power256(8) == U64
  {
    assert Power256(4) == 256 * (256 * (256 * 256));
    assert Power256(8) == 256 * (256 * (256 * (256 * Power256(4))));
  }

  /** The fields are 64 bits wide. */
  predicate Fits(u: Undo) {
    u.loc < U64 && |u.data| < U64
  }

  predicate AllFit(log: seq<Undo>) {
    forall k | 0 <= k < |log| :: Fits(log[k])
  }

  predicate NoneEmpty(log: seq<Undo>) {
    forall k | 0 <= k < |log| :: log[k].data != []
  }

  function Record(u: Undo): seq<byte> {
    Encode(u.loc, 8) + Encode(|u.data|, 8) + u.data
  }

  function Records(log: seq<Undo>): seq<byte> {
    if log == [] then [] else Record(log[0]) + Records(log[1..])
  }

  function Image(log: seq<Undo>): seq<byte> {
    Encode(|log|, 8) + Records(log)
  }

  // ---- parsing --------------------------------------------------------------

  /** The next entry and the bytes after it; a short file and an empty entry are read errors. */
  function ParseRecord(file: seq<byte>): Option<(Undo, seq<byte>)> {
    if |file| < 16 then None
    else
      var count := Decode(file[8..16]);
      if count == 0 || |file| < 16 + count then None
      else Some((Undo(Decode(file[..8]), file[16..16 + count]), file[16 + count..]))
  }

  function ParseRecords(n: nat, file: seq<byte>): Option<seq<Undo>> {
    if n == 0 then Some([])
    else
      match ParseRecord(file)
      case None => None
      case Some(next) =>
        match ParseRecords(n - 1, next.1)
        case None => None
        case Some(rest) => Some([next.0] + rest)
  }

  function Parse(file: seq<byte>): Option<seq<Undo>> {
    if |file| < 8 || Decode(file[..8]) > UNINSTALL_DATA_MAX then None
    else ParseRecords(Decode(file[..8]), file[8..])
  }

  lemma ParseOneRecord(u: Undo, rest: seq<byte>)
    requires Fits(u) && u.data != []
    ensures ParseRecord(Record(u) + rest) == Some((u, rest))
  {
    hide Encode, Decode, Power256;
    var file := Record(u) + rest;
    Power256Of8();
    DecodeEncode(u.loc, 8);
    DecodeEncode(|u.data|, 8);
    assert file[..8] == Encode(u.loc, 8);
    assert file[8..16] == Encode(|u.data|, 8);
    assert file[16..16 + |u.data|] == u.data;
    assert file[16 + |u.data|..] == rest;
  }

  lemma {:induction false} ParseAllRecords(log: seq<Undo>, rest: seq<byte>)
    requires AllFit(log) && NoneEmpty(log)
    ensures ParseRecords(|log|, Records(log) + rest) == Some(log)
    decreases |log|
  {
    if log != [] {
      var after := Records(log[1..]) + rest;
      assert Records(log) + rest == Record(log[0]) + after;
      ParseOneRecord(log[0], after);
      ParseAllRecords(log[1..], rest);
      assert log == [log[0]] + log[1..];
      hide ParseRecord, Record;
    }
  }

  /** What was stored loads back identical, whatever follows it in the file. */
  lemma StoreThenLoad(log: seq<Undo>, rest: seq<byte>)
    requires AllFit(log) && NoneEmpty(log) && |log| <= UNINSTALL_DATA_MAX
    ensures Parse(Image(log) + rest) == Some(log)
  {
    hide Encode, Decode, ParseRecords, Records;
    var file := Image(log) + rest;
    Power256Of8();
    hide Power256;
    DecodeEncode(|log|, 8);
    assert file[..8] == Encode(|log|, 8);
    assert file[8..] == Records(log) + rest;
    ParseAllRecords(log, rest);
  }

  lemma RecordOfParsed(file: seq<byte>)
    requires ParseRecord(file).Some?
    ensures var (u, rest) := ParseRecord(file).value;
            Fits(u) && u.data != [] && file == Record(u) + rest
  {
    hide Encode, Decode, Power256;
    Power256Of8();
    EncodeDecode(file[..8]);
    EncodeDecode(file[8..16]);
    assert file == file[..8] + file[8..16] + file[16..];
  }

  lemma {:induction false} RecordsOfParsed(n: nat, file: seq<byte>)
    requires ParseRecords(n, file).Some?
    ensures var log := ParseRecords(n, file).value;
            && |log| == n && AllFit(log) && NoneEmpty(log)
            && Records(log) <= file
  {
    if n > 0 {
      RecordOfParsed(file);
      var (u, rest) := ParseRecord(file).value;
      RecordsOfParsed(n - 1, rest);
      var tail := ParseRecords(n - 1, rest).value;
      assert ([u] + tail)[1..] == tail;
      hide ParseRecord, Record;
    }
  }

  /** A file that loads starts with what storing the loaded log writes: nothing else is accepted. */
  lemma LoadThenStore(file: seq<byte>)
    requires Parse(file).Some?
    ensures var log := Parse(file).value;
            && |log| <= UNINSTALL_DATA_MAX && AllFit(log) && NoneEmpty(log)
            && Image(log) <= file
  {
    hide Encode, Decode, ParseRecords, Records;
    EncodeDecode(file[..8]);
    RecordsOfParsed(Decode(file[..8]), file[8..]);
    assert file == file[..8] + file[8..];
  }

  // ---- where the fields lie -------------------------------------------------

  /** Where the k-th entry begins. */
  function EntryAt(log: seq<Undo>, k: nat): nat
    requires k <= |log|
  {
    if k == 0 then 8 else EntryAt(log, k - 1) + 16 + |log[k - 1].data|
  }

  lemma {:induction false} RecordsSplit(log: seq<Undo>, k: nat)
    requires k <= |log|
    ensures 8 + |Records(log[..k])| == EntryAt(log, k) && Records(log) == Records(log[..k]) + Records(log[k..])
    decreases k
  {
    hide Encode;
    if k == 0 {
      assert log[0..] == log && Records(log[..0]) == [];
    } else {
      RecordsSplit(log, k - 1);
      assert log[..k] == log[..k - 1] + [log[k - 1]] && log[k - 1..][1..] == log[k..];
      RecordsPush(log[..k - 1], log[k - 1]);
      assert |Record(log[k - 1])| == 16 + |log[k - 1].data|;
      Grouped(Records(log[..k - 1]), Record(log[k - 1]), Records(log[k..]));
      hide Record;
    }
  }

  lemma Pieces(before: seq<byte>, a: seq<byte>, b: seq<byte>, c: seq<byte>, after: seq<byte>)
    ensures var all, i := before + (a + b + c) + after, |before|;
            && all[i..i + |a|] == a && all[i + |a|..i + |a| + |b|] == b
            && all[i + |a| + |b|..i + |a| + |b| + |c|] == c
  {
  }

  /** The image byte by byte: the number of entries, and for each its place, its length and its bytes. */
  lemma FieldsOfImage(log: seq<Undo>, k: nat)
    requires k < |log|
    ensures var image, at, n := Image(log), EntryAt(log, k), |log[k].data|;
            && at + 16 + n <= |image|
            && image[..8] == Encode(|log|, 8)
            && image[at..at + 8] == Encode(log[k].loc, 8)
            && image[at + 8..at + 16] == Encode(n, 8)
            && image[at + 16..at + 16 + n] == log[k].data
  {
    RecordsSplit(log, k);
    hide Encode, EntryAt;
    var count, first, after := Encode(|log|, 8), Records(log[..k]), Records(log[k + 1..]);
    assert log[k..][0] == log[k] && log[k..][1..] == log[k + 1..];
    var record := Record(log[k]);
    assert Records(log[k..]) == record + after;
    assert Image(log) == count + (first + (record + after));
    Grouped(count, first, record + after);
    Grouped(count + first, record, after);
    Pieces(count + first, Encode(log[k].loc, 8), Encode(|log[k].data|, 8), log[k].data, after);
    assert |count + first| == EntryAt(log, k);
    hide Records, Record, Image;
    assert (count + first + record + after)[..8] == count;
  }

  // ---- the loops ------------------------------------------------------------

  lemma Grouped(a: seq<byte>, b: seq<byte>, c: seq<byte>)
    ensures a + b + c == a + (b + c)
  {
  }

  lemma {:induction false} RecordsPush(log: seq<Undo>, u: Undo)
    ensures Records(log + [u]) == Records(log) + Record(u)
  {
    hide Record;
    if log == [] {
      assert log + [u] == [u];
      assert Records([]) == [];
    } else {
      assert (log + [u])[1..] == log[1..] + [u];
      RecordsPush(log[1..], u);
      Grouped(Record(log[0]), Records(log[1..]), Record(u));
      hide Records;
    }
  }

  lemma NothingStored(log: seq<Undo>)
    ensures NoneEmpty(log[..0]) && Records(log[..0]) == []
  {
  }

  lemma OneMoreStored(log: seq<Undo>, i: nat)
    requires i < |log| && NoneEmpty(log[..i]) && log[i].data != []
    ensures NoneEmpty(log[..i + 1]) && Records(log[..i + 1]) == Records(log[..i]) + Record(log[i])
  {
    hide Records, Record;
    assert log[..i + 1] == log[..i] + [log[i]];
    RecordsPush(log[..i], log[i]);
  }

  /** Write the count, then every entry; writing an entry without bytes is a write error. */
  method StoreUninstallData(c: BlockCache) returns (ok: bool, file: seq<byte>)
    requires c.Valid()
    ensures ok <==> NoneEmpty(c.Log())
    ensures ok ==> file == Image(c.Log())
  {
    ghost var log := c.Log();
    file := Encode(c.uninstallDataCount, 8);
    ghost var header := file;
    hide Encode, Records, Image;
    var i := 0;
    NothingStored(log);
    while i < c.uninstallDataCount
      invariant i <= |log| && NoneEmpty(log[..i])
      invariant file == header + Records(log[..i])
    {
      var entry := c.uninstallData[i];
      assert entry == log[i];
      if |entry.data| == 0 {
        return false, file;
      }
      OneMoreStored(log, i);
      Grouped(header, Records(log[..i]), Record(entry));
      file := file + (Encode(entry.loc, 8) + Encode(|entry.data|, 8) + entry.data);
      i := i + 1;
    }
    assert log[..i] == log;
    ok := true;
  }

  /** What is left of the file gives the entries after those in the log. */
  ghost predicate Loading(file: seq<byte>, log: seq<Undo>, n: nat, rest: seq<byte>) {
    Parse(file) == match ParseRecords(n, rest)
                   case None => None
                   case Some(more) => Some(log + more)
  }

  lemma LoadingStarts(file: seq<byte>)
    requires |file| >= 8 && Decode(file[..8]) <= UNINSTALL_DATA_MAX
    ensures Loading(file, [], Decode(file[..8]), file[8..])
  {
    hide Decode, ParseRecords;
    assert forall more: seq<Undo> :: [] + more == more;
  }

  lemma LoadingFails(file: seq<byte>, log: seq<Undo>, n: nat, rest: seq<byte>)
    requires Loading(file, log, n, rest) && n > 0 && ParseRecord(rest).None?
    ensures Parse(file).None?
  {
    hide Parse, ParseRecord;
  }

  lemma LoadingMore(file: seq<byte>, log: seq<Undo>, n: nat, rest: seq<byte>, u: Undo, after: seq<byte>)
    requires Loading(file, log, n, rest) && n > 0 && ParseRecord(rest) == Some((u, after))
    ensures Loading(file, log + [u], n - 1, after)
  {
    hide Parse, ParseRecord;
    if ParseRecords(n - 1, after).Some? {
      var more := ParseRecords(n - 1, after).value;
      assert log + ([u] + more) == log + [u] + more;
    }
  }

  lemma LoadingEnds(file: seq<byte>, log: seq<Undo>, rest: seq<byte>)
    requires Loading(file, log, 0, rest)
    ensures Parse(file) == Some(log)
  {
    hide Parse;
    assert log + [] == log;
  }

  /** Read the next entry. */
  method ReadRecord(file: seq<byte>) returns (u: Option<Undo>, after: seq<byte>)
    ensures u.None? ==> ParseRecord(file).None?
    ensures u.Some? ==> ParseRecord(file) == Some((u.value, after))
  {
    if |file| < 16 {
      return None, [];
    }
    var loc := Decode(file[..8]);
    var count := Decode(file[8..16]);
    if count == 0 || |file| < 16 + count {
      return None, [];
    }
    return Some(Undo(loc, file[16..16 + count])), file[16 + count..];
  }

  /** Fill the log from a file. */
  method LoadUninstallData(c: BlockCache, file: seq<byte>) returns (ok: bool)
    requires c.Valid()
    modifies c`uninstallDataCount, c.uninstallData
    ensures c.Valid()
    ensures ok <==> Parse(file).Some?
    ensures ok ==> c.Log() == Parse(file).value
  {
    hide Decode, ParseRecords, Loading;
    if |file| < 8 {
      return false;
    }
    var n := Decode(file[..8]);
    if n > UNINSTALL_DATA_MAX {
      return false;
    }
    LoadingStarts(file);
    hide Parse;
    var rest := file[8..];
    c.uninstallDataCount := 0;
    assert c.Log() == [];
    while c.uninstallDataCount < n
      invariant c.uninstallDataCount <= n <= UNINSTALL_DATA_MAX && c.Valid()
      invariant Loading(file, c.Log(), n - c.uninstallDataCount, rest)
      decreases n - c.uninstallDataCount
    {
      ghost var log, left := c.Log(), n - c.uninstallDataCount;
      var u, after := ReadRecord(rest);
      if u.None? {
        LoadingFails(file, log, left, rest);
        return false;
      }
      hide ParseRecord;
      LoadingMore(file, log, left, rest, u.value, after);
      c.uninstallData[c.uninstallDataCount] := u.value;
      c.uninstallDataCount := c.uninstallDataCount + 1;
      assert c.Log() == log + [u.value];
      rest := after;
    }
    LoadingEnds(file, c.Log(), rest);
    ok := true;
  }
}
