/** A bounded page that keeps the first values of everything offered, in place. */
module OrderedPages {
  import opened Options

  /** The caller's comparison as a strict weak order. */
  ghost predicate StrictWeakOrder<T(!new)>(less: (T, T) -> bool) {
    && (forall a :: !less(a, a))
    && (forall a, b, c :: less(a, b) && less(b, c) ==> less(a, c))
    && (forall a, b, c :: less(a, c) ==> less(a, b) || less(b, c))
  }

  function Prefix<T>(s: seq<T>, n: nat): seq<T> {
    if |s| <= n then s else s[..n]
  }

  // ---- the stable sort ------------------------------------------------------

  /** Index `i` comes before index `j` in the stable order of the values. */
  predicate Before<T>(xs: seq<T>, less: (T, T) -> bool, i: int, j: int)
    requires 0 <= i < |xs| && 0 <= j < |xs|
  {
    less(xs[i], xs[j]) || (!less(xs[j], xs[i]) && i < j)
  }

  /** `order` lists every index of `xs` once, each before the next: the stable sort. */
  predicate IsStableSort<T>(xs: seq<T>, less: (T, T) -> bool, order: seq<nat>) {
    && |order| == |xs|
    && (forall k | 0 <= k < |order| :: order[k] < |xs|)
    && (forall i | 0 <= i < |xs| :: i in order)
    && (forall a, b | 0 <= a < b < |order| :: Before(xs, less, order[a], order[b]))
  }

  function Values<T>(xs: seq<T>, order: seq<nat>): (r: seq<T>)
    requires forall k | 0 <= k < |order| :: order[k] < |xs|
    ensures |r| == |order|
  {
    seq(|order|, k requires 0 <= k < |order| => xs[order[k]])
  }

  lemma NoRepeats<T(!new)>(xs: seq<T>, less: (T, T) -> bool, p: seq<nat>, i: nat, k: nat)
    requires StrictWeakOrder(less) && IsStableSort(xs, less, p) && i < k < |xs|
    ensures p[i] != p[k]
  {
    assert Before(xs, less, p[i], p[k]);
  }

  /** Where two stable sorts first differ, each puts its own element before that of the other. */
  lemma OwnFirst<T(!new)>(xs: seq<T>, less: (T, T) -> bool, p: seq<nat>, q: seq<nat>, k: nat)
    requires StrictWeakOrder(less) && IsStableSort(xs, less, p) && IsStableSort(xs, less, q) && k < |xs|
    requires p[..k] == q[..k] && p[k] != q[k]
    ensures Before(xs, less, q[k], p[k])
  {
    forall i | 0 <= i < k
      ensures q[i] != p[k]
    {
      NoRepeats(xs, less, p, i, k);
      assert q[i] == q[..k][i] == p[..k][i] == p[i];
    }
    assert p[k] in q;
    var i :| 0 <= i < |q| && q[i] == p[k];
    assert Before(xs, less, q[k], q[i]);
  }

  lemma NotBoth<T(!new)>(xs: seq<T>, less: (T, T) -> bool, i: nat, j: nat)
    requires StrictWeakOrder(less) && i < |xs| && j < |xs| && Before(xs, less, i, j)
    ensures !Before(xs, less, j, i)
  {
  }

  /** There is only one stable sort. */
  lemma {:induction false} StableSortUnique<T(!new)>(xs: seq<T>, less: (T, T) -> bool, p: seq<nat>, q: seq<nat>, k: nat)
    requires StrictWeakOrder(less) && IsStableSort(xs, less, p) && IsStableSort(xs, less, q) && k <= |xs|
    ensures p[..k] == q[..k]
  {
    if k > 0 {
      StableSortUnique(xs, less, p, q, k - 1);
      if p[k - 1] != q[k - 1] {
        OwnFirst(xs, less, p, q, k - 1);
        NotBoth(xs, less, q[k - 1], p[k - 1]);
        OwnFirst(xs, less, q, p, k - 1);
        assert false;
      }
      assert p[..k] == p[..k - 1] + [p[k - 1]] && q[..k] == q[..k - 1] + [q[k - 1]];
    }
  }

  // ---- one offer ------------------------------------------------------------

  /** Where a value goes: before every value at the end that it is less than. */
  function Place<T>(s: seq<T>, value: T, less: (T, T) -> bool): (at: nat)
    ensures at <= |s|
    ensures forall k | at <= k < |s| :: less(value, s[k])
    ensures at > 0 ==> !less(value, s[at - 1])
  {
    if s == [] || !less(value, s[|s| - 1]) then |s| else Place(s[..|s| - 1], value, less)
  }

  function Insert<T>(s: seq<T>, value: T, less: (T, T) -> bool): (r: seq<T>)
    ensures |r| == |s| + 1
  {
    var at := Place(s, value, less);
    s[..at] + [value] + s[at..]
  }

  lemma SplicedAt<T>(s: seq<T>, value: T, at: nat, r: seq<T>)
    requires at <= |s| && r == s[..at] + [value] + s[at..]
    ensures forall k | 0 <= k <= |s| :: r[k] == (if k < at then s[k] else if k == at then value else s[k - 1])
  {
  }

  /** The page after an offer, and the value given back: the offered one or the last one. */
  function Offered<T>(page: seq<T>, value: T, n: nat, less: (T, T) -> bool): (seq<T>, Option<T>)
    requires 0 < n && |page| <= n
  {
    if |page| < n then (Insert(page, value, less), None)
    else if !less(value, page[n - 1]) then (page, Some(value))
    else (Insert(page[..n - 1], value, less), Some(page[n - 1]))
  }

  ghost predicate Sorted<T>(s: seq<T>, less: (T, T) -> bool) {
    forall a, b | 0 <= a < b < |s| :: !less(s[b], s[a])
  }

  lemma NotLess<T(!new)>(less: (T, T) -> bool, a: T, b: T, c: T)
    requires StrictWeakOrder(less) && !less(a, b) && !less(b, c)
    ensures !less(a, c)
  {
  }

  /** In a sorted sequence the place also separates from the front. */
  lemma PlaceSeparates<T(!new)>(s: seq<T>, value: T, less: (T, T) -> bool)
    requires StrictWeakOrder(less) && Sorted(s, less)
    ensures forall k | 0 <= k < Place(s, value, less) :: !less(value, s[k])
  {
    var at := Place(s, value, less);
    forall k | 0 <= k < at
      ensures !less(value, s[k])
    {
      if k < at - 1 {
        NotLess(less, value, s[at - 1], s[k]);
      }
    }
    hide StrictWeakOrder;
  }

  /** The place is the only cut with greater values after it and none before it. */
  lemma PlaceIs<T(!new)>(s: seq<T>, value: T, less: (T, T) -> bool, at: nat)
    requires StrictWeakOrder(less) && Sorted(s, less) && at <= |s|
    requires forall k | at <= k < |s| :: less(value, s[k])
    requires at > 0 ==> !less(value, s[at - 1])
    ensures Place(s, value, less) == at
  {
    PlaceSeparates(s, value, less);
    hide StrictWeakOrder;
  }

  lemma CutInside<T>(s: seq<T>, value: T, at: nat, n: nat)
    requires at < n <= |s|
    ensures (s[..at] + [value] + s[at..])[..n] == s[..n - 1][..at] + [value] + s[..n - 1][at..]
  {
  }

  lemma CutBefore<T>(s: seq<T>, value: T, at: nat, n: nat)
    requires n <= at <= |s|
    ensures (s[..at] + [value] + s[at..])[..n] == s[..n]
  {
  }

  lemma SortedPrefix<T>(s: seq<T>, less: (T, T) -> bool, n: nat)
    requires Sorted(s, less) && n <= |s|
    ensures Sorted(s[..n], less)
  {
  }

  /** A value that displaces the last one of a full page. */
  lemma InsertInside<T(!new)>(s: seq<T>, value: T, n: nat, less: (T, T) -> bool)
    requires StrictWeakOrder(less) && Sorted(s, less) && 0 < n <= |s| && less(value, s[n - 1])
    ensures Insert(s[..n - 1], value, less) == Insert(s, value, less)[..n]
  {
    hide StrictWeakOrder, Sorted;
    var at := Place(s, value, less);
    PlaceSeparates(s, value, less);
    SortedPrefix(s, less, n - 1);
    hide Place;
    PlaceIs(s[..n - 1], value, less, at);
    CutInside(s, value, at, n);
  }

  /** A value that a full page has no room for. */
  lemma InsertBeyond<T(!new)>(s: seq<T>, value: T, n: nat, less: (T, T) -> bool)
    requires StrictWeakOrder(less) && Sorted(s, less) && 0 < n <= |s| && !less(value, s[n - 1])
    ensures Insert(s, value, less)[..n] == s[..n]
  {
    hide StrictWeakOrder, Sorted;
    var at := Place(s, value, less);
    PlaceSeparates(s, value, less);
    hide Place;
    CutBefore(s, value, at, n);
  }

  /** Cutting the page to size before or after an insertion makes no difference. */
  lemma OfferIsInsertAndCut<T(!new)>(s: seq<T>, value: T, n: nat, less: (T, T) -> bool)
    requires StrictWeakOrder(less) && Sorted(s, less) && 0 < n
    ensures Offered(Prefix(s, n), value, n, less).0 == Prefix(Insert(s, value, less), n)
  {
    hide StrictWeakOrder, Sorted, Insert;
    if |s| < n {
    } else {
      assert Prefix(s, n) == s[..n] && s[..n][n - 1] == s[n - 1] && s[..n][..n - 1] == s[..n - 1];
      if less(value, s[n - 1]) {
        InsertInside(s, value, n, less);
      } else {
        InsertBeyond(s, value, n, less);
      }
    }
  }

  // ---- any number of offers -------------------------------------------------

  /** The page and the values given back after offering `xs` in turn. */
  function OfferedAll<T>(xs: seq<T>, n: nat, less: (T, T) -> bool): (r: (seq<T>, seq<T>))
    requires 0 < n
    ensures |r.0| <= n
  {
    if xs == [] then ([], [])
    else
      var (page, back) := OfferedAll(xs[..|xs| - 1], n, less);
      var (next, given) := Offered(page, xs[|xs| - 1], n, less);
      (next, if given.Some? then back + [given.value] else back)
  }

  lemma OfferedNext<T>(xs: seq<T>, value: T, n: nat, less: (T, T) -> bool)
    requires 0 < n
    ensures var (page, back) := OfferedAll(xs, n, less);
            var (next, given) := Offered(page, value, n, less);
            OfferedAll(xs + [value], n, less) == (next, if given.Some? then back + [given.value] else back)
  {
    assert (xs + [value])[..|xs|] == xs;
    hide Offered;
  }

  lemma StableSortSorted<T(!new)>(xs: seq<T>, less: (T, T) -> bool, order: seq<nat>)
    requires StrictWeakOrder(less) && IsStableSort(xs, less, order)
    ensures Sorted(Values(xs, order), less)
  {
    var s := Values(xs, order);
    forall a, b | 0 <= a < b < |s|
      ensures !less(s[b], s[a])
    {
      assert Before(xs, less, order[a], order[b]);
    }
  }

  /** The order with a new last index placed at `at`. */
  function PlaceIndex(order: seq<nat>, at: nat): seq<nat>
    requires at <= |order|
  {
    order[..at] + [|order|] + order[at..]
  }

  lemma PlaceIndexCovers(order: seq<nat>, at: nat, i: nat)
    requires at <= |order| && (i in order || i == |order|)
    ensures i in PlaceIndex(order, at)
  {
    if i in order {
      var k :| 0 <= k < |order| && order[k] == i;
      assert PlaceIndex(order, at)[if k < at then k else k + 1] == i;
    } else {
      assert PlaceIndex(order, at)[at] == i;
    }
  }

  lemma PlaceIndexBefore<T>(xs: seq<T>, value: T, less: (T, T) -> bool, order: seq<nat>, at: nat, a: nat, b: nat)
    requires IsStableSort(xs, less, order) && at <= |order| && a < b <= |order|
    requires forall k | 0 <= k < at :: !less(value, Values(xs, order)[k])
    requires forall k | at <= k < |order| :: less(value, Values(xs, order)[k])
    ensures PlaceIndex(order, at)[a] <= |xs| && PlaceIndex(order, at)[b] <= |xs|
    ensures Before(xs + [value], less, PlaceIndex(order, at)[a], PlaceIndex(order, at)[b])
  {
    assert a < at ==> Values(xs, order)[a] == xs[order[a]];
    assert b > at ==> Values(xs, order)[b - 1] == xs[order[b - 1]];
    if a != at && b != at {
      assert Before(xs, less, order[if a < at then a else a - 1], order[if b < at then b else b - 1]);
    }
  }

  lemma PlaceIndexStable<T>(xs: seq<T>, value: T, less: (T, T) -> bool, order: seq<nat>, at: nat)
    requires IsStableSort(xs, less, order) && at <= |order|
    requires forall k | 0 <= k < at :: !less(value, Values(xs, order)[k])
    requires forall k | at <= k < |order| :: less(value, Values(xs, order)[k])
    ensures IsStableSort(xs + [value], less, PlaceIndex(order, at))
  {
    forall i | 0 <= i < |xs| + 1
      ensures i in PlaceIndex(order, at)
    {
      PlaceIndexCovers(order, at, i);
    }
    forall a, b | 0 <= a < b < |order| + 1
      ensures PlaceIndex(order, at)[a] <= |xs| && PlaceIndex(order, at)[b] <= |xs|
      ensures Before(xs + [value], less, PlaceIndex(order, at)[a], PlaceIndex(order, at)[b])
    {
      PlaceIndexBefore(xs, value, less, order, at, a, b);
    }
    hide Before;
  }

  /** Adding the last value to the stable sort of the values before it. */
  lemma StableSortGrows<T(!new)>(xs: seq<T>, value: T, less: (T, T) -> bool, order: seq<nat>) returns (next: seq<nat>)
    requires StrictWeakOrder(less) && IsStableSort(xs, less, order)
    ensures IsStableSort(xs + [value], less, next)
    ensures Sorted(Values(xs, order), less)
    ensures Values(xs + [value], next) == Insert(Values(xs, order), value, less)
  {
    hide StrictWeakOrder, Sorted, Place;
    assert forall k | 0 <= k < |order| :: order[k] < |xs|;
    var s := Values(xs, order);
    StableSortSorted(xs, less, order);
    var at := Place(s, value, less);
    PlaceSeparates(s, value, less);
    next := PlaceIndex(order, at);
    PlaceIndexStable(xs, value, less, order, at);
    assert Values(xs + [value], next) == s[..at] + [value] + s[at..];
  }

  lemma PageGrows<T(!new)>(xs: seq<T>, value: T, n: nat, less: (T, T) -> bool, sorted: seq<T>)
    requires StrictWeakOrder(less) && 0 < n && Sorted(sorted, less)
    requires OfferedAll(xs, n, less).0 == Prefix(sorted, n)
    ensures OfferedAll(xs + [value], n, less).0 == Prefix(Insert(sorted, value, less), n)
  {
    hide Offered, OfferedAll, Insert, StrictWeakOrder, Sorted, Prefix;
    OfferedNext(xs, value, n, less);
    OfferIsInsertAndCut(sorted, value, n, less);
  }

  /** After any offers the page is the beginning of the stable sort of everything offered. */
  lemma {:induction false} PageIsStableTop<T(!new)>(xs: seq<T>, n: nat, less: (T, T) -> bool) returns (order: seq<nat>)
    requires StrictWeakOrder(less) && 0 < n
    ensures IsStableSort(xs, less, order)
    ensures OfferedAll(xs, n, less).0 == Prefix(Values(xs, order), n)
    decreases |xs|
  {
    if xs == [] {
      order := [];
    } else {
      hide Offered, OfferedAll, Insert, IsStableSort, StrictWeakOrder, Sorted;
      var init, value := xs[..|xs| - 1], xs[|xs| - 1];
      var before := PageIsStableTop(init, n, less);
      assert init + [value] == xs;
      order := StableSortGrows(init, value, less, before);
      PageGrows(init, value, n, less, Values(init, before));
    }
  }

  /** The page does not depend on which stable sort one takes. */
  lemma PageIsTheStableTop<T(!new)>(xs: seq<T>, n: nat, less: (T, T) -> bool, order: seq<nat>)
    requires StrictWeakOrder(less) && 0 < n && IsStableSort(xs, less, order)
    ensures OfferedAll(xs, n, less).0 == Prefix(Values(xs, order), n)
  {
    var other := PageIsStableTop(xs, n, less);
    StableSortUnique(xs, less, order, other, |xs|);
    assert order[..|xs|] == order && other[..|xs|] == other;
  }

  lemma InsertKeeps<T>(s: seq<T>, value: T, less: (T, T) -> bool)
    ensures multiset(Insert(s, value, less)) == multiset(s) + multiset{value}
  {
    var at := Place(s, value, less);
    assert s == s[..at] + s[at..];
  }

  function Given<T>(back: Option<T>): multiset<T> {
    if back.Some? then multiset{back.value} else multiset{}
  }

  lemma OfferConserves<T>(page: seq<T>, value: T, n: nat, less: (T, T) -> bool)
    requires 0 < n && |page| <= n
    ensures var (next, back) := Offered(page, value, n, less);
            multiset(next) + Given(back) == multiset(page) + multiset{value}
  {
    hide Insert;
    if |page| == n {
      InsertKeeps(page[..n - 1], value, less);
      assert page == page[..n - 1] + [page[n - 1]];
    } else {
      InsertKeeps(page, value, less);
    }
  }

  lemma BackAndGiven<T>(back: seq<T>, given: Option<T>)
    ensures multiset(if given.Some? then back + [given.value] else back) == multiset(back) + Given(given)
  {
  }

  lemma Regroup<T>(next: multiset<T>, back: multiset<T>, given: multiset<T>, page: multiset<T>, value: multiset<T>)
    requires next + given == page + value
    ensures next + (back + given) == page + back + value
  {
    assert next + (back + given) == next + given + back;
  }

  /** Nothing offered is lost or duplicated: it is on the page or was given back. */
  lemma {:induction false} OffersConserved<T>(xs: seq<T>, n: nat, less: (T, T) -> bool)
    requires 0 < n
    ensures multiset(OfferedAll(xs, n, less).0) + multiset(OfferedAll(xs, n, less).1) == multiset(xs)
    decreases |xs|
  {
    if xs != [] {
      hide Offered, OfferedAll;
      var init, value := xs[..|xs| - 1], xs[|xs| - 1];
      OffersConserved(init, n, less);
      assert xs == init + [value];
      OfferedNext(init, value, n, less);
      var (page, back) := OfferedAll(init, n, less);
      var (next, given) := Offered(page, value, n, less);
      OfferConserves(page, value, n, less);
      BackAndGiven(back, given);
      Regroup(multiset(next), multiset(back), Given(given), multiset(page), multiset{value});
    }
  }

  // ---- the page in place ----------------------------------------------------

  class OrderedPage<T> {
    const entries: array<Option<T>>
    var count: nat

    /** Exactly the first `count` entries own a value. */
    ghost predicate Valid()
      reads this, entries
    {
      && 0 < entries.Length && count <= entries.Length
      && (forall k | 0 <= k < entries.Length :: entries[k].Some? <==> k < count)
    }

    ghost function Contents(): (s: seq<T>)
      requires Valid()
      reads this, entries
      ensures |s| == count
    {
      seq(count, k requires 0 <= k < count && Valid() reads this, entries => entries[k].value)
    }

    constructor (n: nat)
      requires 0 < n
      ensures Valid() && Contents() == [] && entries.Length == n && fresh(entries)
    {
      entries := new Option<T>[n](_ => None);
      count := 0;
    }

    /** Move values up from the hole at the end until the value has its place. */
    method Shift(value: T, less: (T, T) -> bool, last: nat, ghost base: seq<T>) returns (at: nat)
      requires last == |base| < entries.Length && entries[|base|] == None
      requires forall k | 0 <= k < |base| :: entries[k] == Some(base[k])
      requires forall k | |base| < k < entries.Length :: entries[k] == None
      modifies entries
      ensures at == Place(base, value, less) && entries[at] == None
      ensures forall k | 0 <= k < at :: entries[k] == Some(base[k])
      ensures forall k | at < k <= |base| :: entries[k] == Some(base[k - 1])
      ensures forall k | |base| < k < entries.Length :: entries[k] == None
    {
      at := last;
      assert base[..|base|] == base;
      while at > 0 && less(value, entries[at - 1].value)
        invariant at <= |base| && entries[at] == None
        invariant forall k | 0 <= k < at :: entries[k] == Some(base[k])
        invariant forall k | at < k <= |base| :: entries[k] == Some(base[k - 1])
        invariant forall k | |base| < k < entries.Length :: entries[k] == None
        invariant Place(base[..at], value, less) == Place(base, value, less)
      {
        assert base[..at][..at - 1] == base[..at - 1];
        entries[at] := entries[at - 1];
        entries[at - 1] := None;
        at := at - 1;
      }
    }

    method Offer(value: T, less: (T, T) -> bool) returns (back: Option<T>)
      requires Valid()
      modifies this, entries
      ensures Valid()
      ensures (Contents(), back) == Offered(old(Contents()), value, entries.Length, less)
    {
      var n := entries.Length;
      if count == n && !less(value, entries[n - 1].value) {
        return Some(value);
      }
      ghost var was := Contents();
      var last := if count < n - 1 then count else n - 1;
      ghost var base := was[..last];
      back := entries[last];
      entries[last] := None;
      hide Insert;
      PutInPlace(value, less, last, base);
      count := if count + 1 < n then count + 1 else n;
      assert count == last + 1 && Valid();
      assert Contents() == Insert(base, value, less);
      assert |was| < n ==> base == was;
    }

    method PutInPlace(value: T, less: (T, T) -> bool, last: nat, ghost base: seq<T>)
      requires last == |base| < entries.Length && entries[last] == None
      requires forall k | 0 <= k < last :: entries[k] == Some(base[k])
      requires forall k | last < k < entries.Length :: entries[k] == None
      modifies entries
      ensures forall k | 0 <= k <= last :: entries[k] == Some(Insert(base, value, less)[k])
      ensures forall k | last < k < entries.Length :: entries[k] == None
    {
      var at := Shift(value, less, last, base);
      entries[at] := Some(value);
      SplicedAt(base, value, at, Insert(base, value, less));
      hide Insert, Place;
    }
  }

  /** A page for no value at all is refused. */
  method NewPage<T>(n: nat) returns (page: Option<OrderedPage<T>>)
    ensures page.Some? <==> n > 0
    ensures page.Some? ==>
              && fresh(page.value) && fresh(page.value.entries)
              && page.value.Valid() && page.value.Contents() == [] && page.value.entries.Length == n
  {
    if n == 0 {
      return None;
    }
    var p := new OrderedPage<T>(n);
    page := Some(p);
  }

  /** Offering a whole sequence, one value after the other. */
  method OfferSequence<T>(xs: seq<T>, n: nat, less: (T, T) -> bool) returns (page: seq<T>, back: seq<T>)
    requires 0 < n
    ensures (page, back) == OfferedAll(xs, n, less)
  {
    var p := new OrderedPage<T>(n);
    back := [];
    var i := 0;
    while i < |xs|
      invariant i <= |xs| && p.Valid() && fresh(p) && fresh(p.entries) && p.entries.Length == n
      invariant (p.Contents(), back) == OfferedAll(xs[..i], n, less)
    {
      assert xs[..i + 1][..i] == xs[..i];
      var given := p.Offer(xs[i], less);
      hide Offered;
      if given.Some? {
        back := back + [given.value];
      }
      i := i + 1;
    }
    assert xs[..i] == xs;
    page := [];
    var k := 0;
    while k < p.count
      invariant k <= p.count && page == p.Contents()[..k]
    {
      page := page + [p.entries[k].value];
      k := k + 1;
    }
    assert p.Contents()[..k] == p.Contents();
  }
}
