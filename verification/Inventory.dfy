/** Capturing a changing service table page by page, with at most three attempts. */
module Inventories {

  const U64 := 0x1_0000_0000_0000_0000

  datatype Row = Row(registrationId: nat, content: int)

  /** The bits of the cursor's flag word: the two known ones, and whether any other is set. */
  datatype Flags = Flags(dynamic: bool, end: bool, unknown: bool)

  datatype Cursor = Cursor(revision: nat, afterId: nat, total: nat, reserved: nat, flags: Flags)

  const START := Cursor(0, 0, 0, 0, Flags(false, false, false))

  datatype Code = Restart | Busy | Memory | Other(code: int)

  /** What one page call of the provider gives: a negative code, or rows and a new cursor. */
  datatype Reply = Failed(code: Code) | Rows(rows: seq<Row>, cursor: Cursor)

  datatype Error = Raw(code: Code) | InvalidProvider

  datatype Result = Ok(rows: seq<Row>, revision: nat) | Err(error: Error)

  /** The provider answers its k-th call, and storage for the k-th page may be refused. */
  datatype World = World(pageRows: nat, page: (nat, Cursor) -> Reply, reserve: nat -> bool)

  /** The ids of a page continue those before it. */
  predicate Ascending(rows: seq<Row>, last: nat) {
    && (forall i | 0 <= i < |rows| :: last < rows[i].registrationId)
    && (forall i, j | 0 <= i < j < |rows| :: rows[i].registrationId < rows[j].registrationId)
  }

  function LastId(rows: seq<Row>, last: nat): nat {
    if rows == [] then last else rows[|rows| - 1].registrationId
  }

  /** The checks on a page that follows `previous` when `captured` rows are held. */
  predicate Accepted(previous: Cursor, rows: seq<Row>, cursor: Cursor, captured: nat) {
    && cursor.revision != 0
    && cursor.reserved == 0
    && cursor.flags.dynamic
    && !cursor.flags.unknown
    && (previous.revision != 0 ==> cursor.revision == previous.revision && cursor.total == previous.total)
    && Ascending(rows, previous.afterId)
    && cursor.afterId == LastId(rows, previous.afterId)
    && captured + |rows| <= cursor.total
    && cursor.total < U64
  }

  /** An attempt ends with a result, or asks for another attempt from call number `next`. */
  datatype Outcome = Done(result: Result) | Again(next: nat)

  /** The rest of an attempt: the `call`-th page call with `cursor`, after `values` were captured. */
  function Pages(w: World, call: nat, cursor: Cursor, values: seq<Row>): Outcome
    decreases U64 - |values|
  {
    match w.page(call, cursor)
    case Failed(code) => if code.Restart? || code.Busy? then Again(call + 1) else Done(Err(Raw(code)))
    case Rows(rows, next) =>
      if |rows| > w.pageRows || !Accepted(cursor, rows, next, |values|) then Done(Err(InvalidProvider))
      else if !w.reserve(call) then Done(Err(Raw(Memory)))
      else if next.flags.end then
        if |values| + |rows| == next.total then Done(Ok(values + rows, next.revision)) else Done(Err(InvalidProvider))
      else if rows == [] then Done(Err(InvalidProvider))
      else Pages(w, call + 1, next, values + rows)
  }

  function Attempts(w: World, n: nat, call: nat): Result {
    if n == 0 then Err(Raw(Busy))
    else
      match Pages(w, call, START, [])
      case Done(result) => result
      case Again(next) => Attempts(w, n - 1, next)
  }

  // ---- the loops ------------------------------------------------------------

  method CheckRows(rows: seq<Row>, last: nat) returns (ok: bool, final: nat)
    ensures ok <==> Ascending(rows, last)
    ensures ok ==> final == LastId(rows, last)
  {
    final := last;
    var i := 0;
    while i < |rows|
      invariant i <= |rows| && Ascending(rows[..i], last) && final == LastId(rows[..i], last)
    {
      if rows[i].registrationId <= final {
        assert i > 0 ==> rows[..i][i - 1] == rows[i - 1];
        return false, final;
      }
      AscendingPush(rows[..i], rows[i], last);
      assert rows[..i + 1] == rows[..i] + [rows[i]];
      final := rows[i].registrationId;
      i := i + 1;
    }
    assert rows[..i] == rows;
    ok := true;
  }

  lemma AscendingPush(rows: seq<Row>, row: Row, last: nat)
    requires Ascending(rows, last) && LastId(rows, last) < row.registrationId
    ensures Ascending(rows + [row], last)
  {
    if rows != [] {
      var k := |rows| - 1;
      assert forall i | 0 <= i < k :: rows[i].registrationId < rows[k].registrationId;
    }
  }

  /** Three attempts, each a loop over pages. */
  method Inventory(w: World) returns (r: Result)
    ensures r == Attempts(w, 3, 0)
  {
    var call := 0;
    var attempt := 0;
    while attempt < 3
      invariant attempt <= 3
      invariant Attempts(w, 3 - attempt, call) == Attempts(w, 3, 0)
    {
      var values: seq<Row> := [];
      var cursor := START;
      ghost var first := call;
      var open := true;
      while open
        invariant open ==> Pages(w, call, cursor, values) == Pages(w, first, START, [])
        invariant !open ==> Pages(w, first, START, []) == Again(call)
        decreases open, U64 - |values|
      {
        var previous := cursor;
        match w.page(call, previous) {
          case Failed(code) =>
            if code.Restart? || code.Busy? {
              open := false;
            } else {
              return Err(Raw(code));
            }
          case Rows(rows, next) =>
            if |rows| > w.pageRows {
              return Err(InvalidProvider);
            }
            cursor := next;
            var ascending, last := CheckRows(rows, previous.afterId);
            if !(cursor.revision != 0 && cursor.reserved == 0 && cursor.flags.dynamic && !cursor.flags.unknown)
               || (previous.revision != 0
                   && (cursor.revision != previous.revision || cursor.total != previous.total))
               || !ascending || cursor.afterId != last
               || cursor.total >= U64 || |values| + |rows| > cursor.total {
              return Err(InvalidProvider);
            }
            if !w.reserve(call) {
              return Err(Raw(Memory));
            }
            if cursor.flags.end {
              if |values| + |rows| != cursor.total {
                return Err(InvalidProvider);
              }
              return Ok(values + rows, cursor.revision);
            }
            if |rows| == 0 {
              return Err(InvalidProvider);
            }
            values := values + rows;
        }
        call := call + 1;
        hide Ascending;
      }
      attempt := attempt + 1;
    }
    r := Err(Raw(Busy));
  }

  // ---- what a capture is ----------------------------------------------------

  /** `rows` are the pages of consecutive calls from `call` on, all of one revision and one
      total, up to the page that carries the end mark. */
  predicate Captured(w: World, call: nat, cursor: Cursor, rows: seq<Row>, revision: nat, total: nat)
    decreases |rows|
  {
    match w.page(call, cursor)
    case Failed(_) => false
    case Rows(page, next) =>
      && next.revision == revision && next.total == total && page <= rows
      && (if next.flags.end then page == rows
          else page != [] && Captured(w, call + 1, next, rows[|page|..], revision, total))
  }

  lemma AscendingConcat(a: seq<Row>, b: seq<Row>, last: nat)
    requires Ascending(a, last) && Ascending(b, LastId(a, last))
    ensures Ascending(a + b, last) && LastId(a + b, last) == LastId(b, LastId(a, last))
  {
    forall i, j | 0 <= i < |a| && 0 <= j < |b|
      ensures a[i].registrationId < b[j].registrationId
    {
      assert i < |a| - 1 ==> a[i].registrationId < a[|a| - 1].registrationId;
    }
  }

  /** What an accepted page adds up to. */
  lemma AcceptedPage(values: seq<Row>, page: seq<Row>, previous: Cursor, next: Cursor)
    requires Ascending(values, 0) && previous.afterId == LastId(values, 0) && Accepted(previous, page, next, |values|)
    ensures Ascending(values + page, 0) && next.afterId == LastId(values + page, 0) && next.revision != 0
    ensures previous.revision != 0 ==> next.revision == previous.revision && next.total == previous.total
  {
    AscendingConcat(values, page, 0);
    hide Ascending, LastId;
  }

  /** A capture that succeeds has ascending ids, the promised number of rows, and one revision. */
  lemma {:induction false} PagesSound(w: World, call: nat, cursor: Cursor, values: seq<Row>)
    requires Ascending(values, 0) && cursor.afterId == LastId(values, 0)
    ensures var o := Pages(w, call, cursor, values);
            o.Done? && o.result.Ok? ==>
              var rows, revision := o.result.rows, o.result.revision;
              && Ascending(rows, 0) && revision != 0
              && values <= rows
              && Captured(w, call, cursor, rows[|values|..], revision, |rows|)
              && (cursor.revision != 0 ==> cursor.revision == revision && cursor.total == |rows|)
    decreases U64 - |values|
  {
    hide Ascending, LastId;
    var reply := w.page(call, cursor);
    if reply.Rows? && |reply.rows| <= w.pageRows && Accepted(cursor, reply.rows, reply.cursor, |values|)
       && w.reserve(call) {
      var page, next := reply.rows, reply.cursor;
      AcceptedPage(values, page, cursor, next);
      if next.flags.end {
        assert (values + page)[|values|..] == page;
      } else if page != [] {
        PagesSound(w, call + 1, next, values + page);
        var o := Pages(w, call + 1, next, values + page);
        if o.Done? && o.result.Ok? {
          var rows := o.result.rows;
          assert rows[|values|..][|page|..] == rows[|values + page|..];
          assert page <= rows[|values|..];
        }
      }
    }
  }

  /** Against any provider a successful inventory has strictly ascending ids and is the
      concatenation of consecutive pages of one revision that promise exactly its length. */
  lemma {:induction false} InventorySound(w: World, n: nat, call: nat)
    ensures var r := Attempts(w, n, call);
            r.Ok? ==>
              && Ascending(r.rows, 0) && r.revision != 0
              && (exists first: nat :: Captured(w, first, START, r.rows, r.revision, |r.rows|))
  {
    if n > 0 {
      PagesSound(w, call, START, []);
      var o := Pages(w, call, START, []);
      hide Pages, Captured, Ascending;
      if o.Again? {
        InventorySound(w, n - 1, o.next);
      } else if o.result.Ok? {
        assert o.result.rows[0..] == o.result.rows;
        assert Captured(w, call, START, o.result.rows, o.result.revision, |o.result.rows|);
      }
    }
  }

  /** Each of `n` attempts from `call` on was told to start again. */
  predicate AllAgain(w: World, n: nat, call: nat) {
    n == 0 || (Pages(w, call, START, []).Again? && AllAgain(w, n - 1, Pages(w, call, START, []).next))
  }

  /** The inventory gives up as busy exactly when every attempt was told to start again. */
  lemma {:induction false} BusyExactlyWhenAllRestart(w: World, n: nat, call: nat)
    ensures Attempts(w, n, call) == Err(Raw(Busy)) <==> AllAgain(w, n, call)
  {
    if n > 0 {
      NotDoneBusy(w, call, START, []);
      var o := Pages(w, call, START, []);
      hide Pages;
      if o.Again? {
        BusyExactlyWhenAllRestart(w, n - 1, o.next);
      }
    }
  }

  lemma {:induction false} NotDoneBusy(w: World, call: nat, cursor: Cursor, values: seq<Row>)
    ensures Pages(w, call, cursor, values) != Done(Err(Raw(Busy)))
    decreases U64 - |values|
  {
    var reply := w.page(call, cursor);
    if reply.Rows? && |reply.rows| <= w.pageRows && Accepted(cursor, reply.rows, reply.cursor, |values|)
       && reply.rows != [] {
      NotDoneBusy(w, call + 1, reply.cursor, values + reply.rows);
      hide Ascending;
    }
  }

  // ---- a truthful provider --------------------------------------------------

  /** Whatever the provider does between calls, a page it sends under a revision holds rows of
      the table of that revision only, and names that table's size. */
  ghost predicate Truthful(w: World, tables: nat -> seq<Row>) {
    forall call: nat, cursor: Cursor ::
      var reply := w.page(call, cursor);
      reply.Rows? ==>
        && reply.cursor.total == |tables(reply.cursor.revision)|
        && (forall i | 0 <= i < |reply.rows| :: reply.rows[i] in tables(reply.cursor.revision))
  }

  lemma {:induction false} CapturedFromTable(w: World, tables: nat -> seq<Row>, call: nat, cursor: Cursor,
                                             rows: seq<Row>, revision: nat, total: nat)
    requires Truthful(w, tables) && Captured(w, call, cursor, rows, revision, total)
    ensures total == |tables(revision)| && forall row | row in rows :: row in tables(revision)
    decreases |rows|
  {
    var reply := w.page(call, cursor);
    if !reply.cursor.flags.end {
      CapturedFromTable(w, tables, call + 1, reply.cursor, rows[|reply.rows|..], revision, total);
      assert rows == reply.rows + rows[|reply.rows|..];
    }
  }

  /** The rows before the last of one table lie before its place in the other. */
  lemma RowsBefore(a: seq<Row>, b: seq<Row>, j: nat)
    requires a != [] && Ascending(a, 0) && Ascending(b, 0) && j < |b| && b[j] == a[|a| - 1]
    requires forall row | row in a :: row in b
    ensures forall row | row in a[..|a| - 1] :: row in b[..j]
  {
    var n := |a| - 1;
    forall row | row in a[..n]
      ensures row in b[..j]
    {
      var k :| 0 <= k < n && a[k] == row;
      assert a[k].registrationId < a[n].registrationId;
      assert row in b;
      var m :| 0 <= m < |b| && b[m] == row;
      assert m < j;
      assert b[..j][m] == row;
    }
  }

  lemma PrefixAscends(rows: seq<Row>, n: nat)
    requires Ascending(rows, 0) && n <= |rows|
    ensures Ascending(rows[..n], 0)
  {
  }

  /** Ascending rows of an ascending table are no more than the table has. */
  lemma {:induction false} NoMoreThan(a: seq<Row>, b: seq<Row>)
    requires Ascending(a, 0) && Ascending(b, 0) && forall row | row in a :: row in b
    ensures |a| <= |b|
    ensures |a| == |b| ==> a == b
    decreases |a|
  {
    hide Ascending;
    if a != [] {
      var n := |a| - 1;
      assert a[n] in b;
      var j :| 0 <= j < |b| && b[j] == a[n];
      RowsBefore(a, b, j);
      PrefixAscends(a, n);
      PrefixAscends(b, j);
      NoMoreThan(a[..n], b[..j]);
      assert a == a[..n] + [a[n]];
      if |a| == |b| {
        assert b == b[..n] + [b[n]];
      }
    }
  }

  /** However the table changes between calls, a successful inventory is exactly the table of
      the revision it names. */
  lemma InventoryIsTheTable(w: World, tables: nat -> seq<Row>, n: nat, call: nat)
    requires Truthful(w, tables) && forall revision: nat :: Ascending(tables(revision), 0)
    ensures var r := Attempts(w, n, call); r.Ok? ==> r.rows == tables(r.revision)
  {
    InventorySound(w, n, call);
    var r := Attempts(w, n, call);
    hide Ascending, Attempts, Captured, Truthful;
    if r.Ok? {
      var first: nat :| Captured(w, first, START, r.rows, r.revision, |r.rows|);
      CapturedFromTable(w, tables, first, START, r.rows, r.revision, |r.rows|);
      NoMoreThan(r.rows, tables(r.revision));
    }
  }

  // ---- a provider whose table stays -----------------------------------------

  /** The next page of a table after the rows with ids up to `after`, `size` rows at most. */
  predicate Serves(table: seq<Row>, revision: nat, pageRows: nat, p: nat, reply: Reply)
    requires p <= |table|
  {
    && reply.Rows?
    && |reply.rows| <= pageRows && reply.rows <= table[p..]
    && (p < |table| ==> reply.rows != [])
    && reply.cursor == Cursor(revision, LastId(table[..p + |reply.rows|], 0), |table|, 0,
                              Flags(true, p + |reply.rows| == |table|, false))
  }

  /** From some call on the provider serves one table and storage suffices. */
  ghost predicate Stable(w: World, table: seq<Row>, revision: nat, from: nat) {
    forall call: nat, p: nat, cursor: Cursor {:trigger Serves(table, revision, w.pageRows, p, w.page(call, cursor))} ::
      call >= from && p <= |table| && cursor.afterId == LastId(table[..p], 0) ==>
        Serves(table, revision, w.pageRows, p, w.page(call, cursor)) && w.reserve(call)
  }

  lemma AscendingSlice(table: seq<Row>, p: nat, q: nat)
    requires Ascending(table, 0) && p <= q <= |table|
    ensures Ascending(table[p..q], LastId(table[..p], 0))
    ensures LastId(table[p..q], LastId(table[..p], 0)) == LastId(table[..q], 0)
  {
  }

  /** What one served page adds up to, and that it passes the checks. */
  lemma ServedPage(table: seq<Row>, revision: nat, pageRows: nat, p: nat, cursor: Cursor, reply: Reply) returns (q: nat)
    requires Ascending(table, 0) && revision != 0 && |table| < U64 && p <= |table|
    requires Serves(table, revision, pageRows, p, reply) && cursor.afterId == LastId(table[..p], 0)
    requires cursor.revision != 0 ==> cursor.revision == revision && cursor.total == |table|
    ensures p <= q <= |table| && table[..p] + reply.rows == table[..q] && |reply.rows| == q - p
    ensures |reply.rows| <= pageRows && Accepted(cursor, reply.rows, reply.cursor, p)
    ensures p < |table| ==> p < q
    ensures reply.cursor.flags.end <==> q == |table|
    ensures reply.cursor.revision == revision && reply.cursor.total == |table|
    ensures reply.cursor.afterId == LastId(table[..q], 0)
  {
    q := p + |reply.rows|;
    assert reply.rows == table[p..q] && table[..p] + reply.rows == table[..q];
    AscendingSlice(table, p, q);
    hide Ascending, LastId;
  }

  lemma {:induction false} StablePages(w: World, table: seq<Row>, revision: nat, from: nat, call: nat, cursor: Cursor,
                                       p: nat)
    requires Stable(w, table, revision, from) && from <= call && Ascending(table, 0) && revision != 0 && |table| < U64
    requires p <= |table| && cursor.afterId == LastId(table[..p], 0) && (p > 0 ==> p < |table|)
    requires cursor.revision != 0 ==> cursor.revision == revision && cursor.total == |table|
    ensures Pages(w, call, cursor, table[..p]) == Done(Ok(table, revision))
    decreases |table| - p
  {
    hide Ascending, LastId, Serves, Accepted;
    var reply := w.page(call, cursor);
    assert Serves(table, revision, w.pageRows, p, reply);
    ServedIsRows(table, revision, w.pageRows, p, reply);
    var q := ServedPage(table, revision, w.pageRows, p, cursor, reply);
    if q == |table| {
      assert table[..q] == table;
    } else {
      hide Stable;
      StablePages(w, table, revision, from, call + 1, reply.cursor, q);
    }
  }

  lemma ServedIsRows(table: seq<Row>, revision: nat, pageRows: nat, p: nat, reply: Reply)
    requires p <= |table| && Serves(table, revision, pageRows, p, reply)
    ensures reply.Rows?
  {
  }

  /** An attempt against a table that does not change captures that table. */
  lemma StableTableIsCaptured(w: World, table: seq<Row>, revision: nat, n: nat, call: nat)
    requires n > 0 && Stable(w, table, revision, call) && Ascending(table, 0) && revision != 0 && |table| < U64
    ensures Attempts(w, n, call) == Ok(table, revision)
  {
    StablePages(w, table, revision, call, call, START, 0);
    assert table[..0] == [];
    hide Pages, Stable, Ascending;
  }

  // ---- exactly how an attempt ends ------------------------------------------

  /** A page that the attempt takes and goes on from. */
  predicate GoesOn(w: World, call: nat, cursor: Cursor, held: nat) {
    var reply := w.page(call, cursor);
    && reply.Rows? && |reply.rows| <= w.pageRows && Accepted(cursor, reply.rows, reply.cursor, held)
    && w.reserve(call) && !reply.cursor.flags.end && reply.rows != []
  }

  /** The cursor after `k` such pages, if there are so many. */
  function CursorAfter(w: World, call: nat, cursor: Cursor, held: nat, k: nat): (after: (bool, Cursor))
    decreases k
  {
    if k == 0 then (true, cursor)
    else if !GoesOn(w, call, cursor, held) then (false, cursor)
    else CursorAfter(w, call + 1, w.page(call, cursor).cursor, held + |w.page(call, cursor).rows|, k - 1)
  }

  /** After `k` pages the provider says that the table changed, or that it is busy. */
  predicate ToldAgain(w: World, call: nat, cursor: Cursor, held: nat, k: nat) {
    var (taken, last) := CursorAfter(w, call, cursor, held, k);
    && taken && w.page(call + k, last).Failed?
    && (w.page(call + k, last).code.Restart? || w.page(call + k, last).code.Busy?)
  }

  lemma ToldNow(w: World, call: nat, cursor: Cursor, held: nat)
    ensures ToldAgain(w, call, cursor, held, 0) <==>
            w.page(call, cursor).Failed? && (w.page(call, cursor).code.Restart? || w.page(call, cursor).code.Busy?)
  {
  }

  lemma ToldLater(w: World, call: nat, cursor: Cursor, held: nat, k: nat)
    requires k > 0
    ensures ToldAgain(w, call, cursor, held, k) <==>
            && GoesOn(w, call, cursor, held)
            && ToldAgain(w, call + 1, w.page(call, cursor).cursor, held + |w.page(call, cursor).rows|, k - 1)
  {
    hide GoesOn;
  }

  /** An attempt asks for another one if and only if, after pages that it took, a page call was
      answered with "restart" or "busy"; the next attempt starts with the call after that. */
  lemma {:induction false} AgainExactly(w: World, call: nat, cursor: Cursor, values: seq<Row>, next: nat)
    ensures Pages(w, call, cursor, values) == Again(next)
       <==> exists k: nat :: next == call + k + 1 && ToldAgain(w, call, cursor, |values|, k)
    decreases U64 - |values|
  {
    var reply := w.page(call, cursor);
    ToldNow(w, call, cursor, |values|);
    forall k: nat | k > 0
      ensures ToldAgain(w, call, cursor, |values|, k) <==>
              && GoesOn(w, call, cursor, |values|)
              && ToldAgain(w, call + 1, reply.cursor, |values| + |reply.rows|, k - 1)
    {
      ToldLater(w, call, cursor, |values|, k);
    }
    hide ToldAgain, Ascending, LastId;
    if GoesOn(w, call, cursor, |values|) {
      var more := values + reply.rows;
      AgainExactly(w, call + 1, reply.cursor, more, next);
      if Pages(w, call + 1, reply.cursor, more) == Again(next) {
        var k: nat :| next == call + 1 + k + 1 && ToldAgain(w, call + 1, reply.cursor, |more|, k);
        assert next == call + (k + 1) + 1 && ToldAgain(w, call, cursor, |values|, k + 1);
      }
    } else if reply.Failed? && (reply.code.Restart? || reply.code.Busy?) {
      assert Pages(w, call, cursor, values) == Again(call + 1);
      assert next == call + 1 ==> next == call + 0 + 1 && ToldAgain(w, call, cursor, |values|, 0);
    }
  }

  /** A table that stays from the first, second or third attempt on is captured. */
  lemma {:induction false} CapturedAfterRestarts(w: World, table: seq<Row>, revision: nat, n: nat, k: nat, call: nat)
    requires k < n && AllAgain(w, k, call) && Ascending(table, 0) && revision != 0 && |table| < U64
    requires Stable(w, table, revision, StartOf(w, k, call))
    ensures Attempts(w, n, call) == Ok(table, revision)
  {
    hide Pages, Stable, Ascending;
    if k == 0 {
      StableTableIsCaptured(w, table, revision, n, call);
    } else {
      CapturedAfterRestarts(w, table, revision, n - 1, k - 1, Pages(w, call, START, []).next);
    }
  }

  /** The call with which the attempt after `k` restarts begins. */
  function StartOf(w: World, k: nat, call: nat): nat
    requires AllAgain(w, k, call)
  {
    if k == 0 then call else StartOf(w, k - 1, Pages(w, call, START, []).next)
  }

  /** A page with any of these defects ends the inventory: a revision of zero or another one than
      before, another total, a word that should be clear or set, rows out of order or with the wrong
      last id, or more rows than were promised or asked for. */
  lemma DefectivePage(w: World, call: nat, cursor: Cursor, values: seq<Row>)
    requires w.page(call, cursor).Rows?
    requires var rows, next := w.page(call, cursor).rows, w.page(call, cursor).cursor;
             || next.revision == 0 || next.reserved != 0 || !next.flags.dynamic || next.flags.unknown
             || (cursor.revision != 0 && (next.revision != cursor.revision || next.total != cursor.total))
             || (exists i | 0 <= i < |rows| ::
                   rows[i].registrationId <= if i == 0 then cursor.afterId else rows[i - 1].registrationId)
             || next.afterId != (if rows == [] then cursor.afterId else rows[|rows| - 1].registrationId)
             || |values| + |rows| > next.total || |rows| > w.pageRows
             || (next.flags.end && |values| + |rows| != next.total) || (!next.flags.end && rows == [] && w.reserve(call))
    ensures Pages(w, call, cursor, values) == Done(Err(InvalidProvider))
         || (Pages(w, call, cursor, values) == Done(Err(Raw(Memory))) && !w.reserve(call))
  {
  }

  /** Other answers of the provider, and storage that is refused, are passed on as they are. */
  lemma PassedOn(w: World, call: nat, cursor: Cursor, values: seq<Row>)
    ensures var reply := w.page(call, cursor);
            && (reply.Failed? && reply.code.Other? ==> Pages(w, call, cursor, values) == Done(Err(Raw(reply.code))))
            && (!w.reserve(call) && reply.Rows? && |reply.rows| <= w.pageRows
                && Accepted(cursor, reply.rows, reply.cursor, |values|) ==>
                  Pages(w, call, cursor, values) == Done(Err(Raw(Memory))))
  {
  }
}
