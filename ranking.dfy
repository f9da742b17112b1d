/**
 * Ranking of the merged lists (src/components/Orderbook3D.tsx:340-341):
 * `allBids.sort((a, b) => b.price - a.price)` and `allAsks.sort((a, b) => a.price - b.price)`.
 * JavaScript's `Array.prototype.sort` is stable, so entries of equal price keep
 * their merge order. `SortBy` is the reference definition (a stable insertion
 * sort); `SortInPlace` is the in-place array sort, proved to compute it.
 */
module Ranking {
  import opened OrderbookTypes

  /** `x` may stand before `y`: the comparator does not ask to swap them. */
  predicate Precedes(side: Side, x: Entry, y: Entry) {
    match side
    case Bid => x.price >= y.price
    case Ask => x.price <= y.price
  }

  /** Bid prices never rise, ask prices never fall, between any two positions. */
  predicate SortedBy(side: Side, s: seq<Entry>) {
    forall i, j :: 0 <= i < j < |s| ==> Precedes(side, s[i], s[j])
  }

  /** Places `x` after every entry of `s` that may precede it, scanning from the back. */
  function Insert(side: Side, x: Entry, s: seq<Entry>): seq<Entry>
    decreases |s|
  {
    if s == [] || Precedes(side, s[|s| - 1], x) then s + [x]
    else Insert(side, x, s[..|s| - 1]) + [s[|s| - 1]]
  }

  /** The stable sort: each entry, in input order, is inserted into the sorted prefix. */
  function SortBy(side: Side, s: seq<Entry>): seq<Entry>
    decreases |s|
  {
    if s == [] then [] else Insert(side, s[|s| - 1], SortBy(side, s[..|s| - 1]))
  }

  /** The entries of one price, in their order of appearance. */
  function AtPrice(s: seq<Entry>, p: real): seq<Entry>
    decreases |s|
  {
    if s == [] then []
    else AtPrice(s[..|s| - 1], p) + (if s[|s| - 1].price == p then [s[|s| - 1]] else [])
  }

  lemma {:induction false} InsertPermutes(side: Side, x: Entry, s: seq<Entry>)
    ensures multiset(Insert(side, x, s)) == multiset(s) + multiset{x}
    ensures |Insert(side, x, s)| == |s| + 1
    decreases |s|
  {
    if s == [] || Precedes(side, s[|s| - 1], x) {
    } else {
      var init, last := s[..|s| - 1], s[|s| - 1];
      InsertPermutes(side, x, init);
      assert s == init + [last];
    }
  }

  lemma {:induction false} InsertKeepsSorted(side: Side, x: Entry, s: seq<Entry>)
    requires SortedBy(side, s)
    ensures SortedBy(side, Insert(side, x, s))
    decreases |s|
  {
    if s == [] || Precedes(side, s[|s| - 1], x) {
      var r := s + [x];
      forall i, j | 0 <= i < j < |r| ensures Precedes(side, r[i], r[j]) {
        if j == |s| && i < |s| - 1 {
          assert Precedes(side, s[i], s[|s| - 1]);
        }
      }
    } else {
      var init, last := s[..|s| - 1], s[|s| - 1];
      InsertKeepsSorted(side, x, init);
      InsertPermutes(side, x, init);
      var m := Insert(side, x, init);
      var r := m + [last];
      forall i, j | 0 <= i < j < |r| ensures Precedes(side, r[i], r[j]) {
        if j == |m| {
          assert r[i] in multiset(m);
          assert r[i] == x || r[i] in multiset(init);
          if r[i] != x {
            var k :| 0 <= k < |init| && init[k] == r[i];
            assert Precedes(side, s[k], s[|s| - 1]);
          }
        }
      }
    }
  }

  lemma {:induction false} SortBySorted(side: Side, s: seq<Entry>)
    ensures SortedBy(side, SortBy(side, s))
    decreases |s|
  {
    if s != [] {
      var init := s[..|s| - 1];
      SortBySorted(side, init);
      InsertKeepsSorted(side, s[|s| - 1], SortBy(side, init));
    }
  }

  lemma {:induction false} SortByPermutes(side: Side, s: seq<Entry>)
    ensures multiset(SortBy(side, s)) == multiset(s)
    ensures |SortBy(side, s)| == |s|
    decreases |s|
  {
    if s != [] {
      var init, last := s[..|s| - 1], s[|s| - 1];
      assert s == init + [last];
      SortByPermutes(side, init);
      InsertPermutes(side, last, SortBy(side, init));
    }
  }

  /** The sorted list is ordered by price for its side and is a permutation of the input. */
  lemma SortByCorrect(side: Side, s: seq<Entry>)
    ensures SortedBy(side, SortBy(side, s))
    ensures multiset(SortBy(side, s)) == multiset(s)
    ensures |SortBy(side, s)| == |s|
  {
    SortBySorted(side, s);
    SortByPermutes(side, s);
  }

  lemma AtPriceSnoc(s: seq<Entry>, y: Entry, p: real)
    ensures AtPrice(s + [y], p) == AtPrice(s, p) + (if y.price == p then [y] else [])
  {
    assert (s + [y])[..|s + [y]| - 1] == s;
  }

  lemma {:induction false} InsertAtPrice(side: Side, x: Entry, s: seq<Entry>, p: real)
    ensures AtPrice(Insert(side, x, s), p)
         == AtPrice(s, p) + (if x.price == p then [x] else [])
    decreases |s|
  {
    if s == [] || Precedes(side, s[|s| - 1], x) {
      assert Insert(side, x, s) == s + [x];
      AtPriceSnoc(s, x, p);
    } else {
      var init, last := s[..|s| - 1], s[|s| - 1];
      var m := Insert(side, x, init);
      assert Insert(side, x, s) == m + [last];
      InsertAtPrice(side, x, init, p);
      AtPriceSnoc(m, last, p);
      AtPriceSnoc(init, last, p);
      assert s == init + [last];
      assert x.price != last.price;
    }
  }

  /** Stability: the entries of any one price appear in the sorted list in merge order. */
  lemma {:induction false} SortByStable(side: Side, s: seq<Entry>, p: real)
    ensures AtPrice(SortBy(side, s), p) == AtPrice(s, p)
    decreases |s|
  {
    if s != [] {
      var init, last := s[..|s| - 1], s[|s| - 1];
      SortByStable(side, init, p);
      InsertAtPrice(side, last, SortBy(side, init), p);
    }
  }

  /** Where the inner loop of the insertion sort stops, `Insert` puts `x` too. */
  lemma {:induction false} InsertSplit(side: Side, x: Entry, s: seq<Entry>, j: nat)
    requires j <= |s|
    requires j == 0 || Precedes(side, s[j - 1], x)
    requires forall k :: j <= k < |s| ==> !Precedes(side, s[k], x)
    ensures Insert(side, x, s) == s[..j] + [x] + s[j..]
    decreases |s|
  {
    if j == |s| {
      assert s[..j] == s;
    } else {
      var init, last := s[..|s| - 1], s[|s| - 1];
      InsertSplit(side, x, init, j);
      assert init[..j] == s[..j];
      assert init[j..] + [last] == s[j..];
    }
  }

  /** One pass of the insertion sort: moves `a[i]` left past every entry that may not precede it. */
  method InsertInPlace(side: Side, a: array<Entry>, i: nat)
    requires i < a.Length
    modifies a
    ensures a[..i + 1] == Insert(side, old(a[i]), old(a[..i]))
    ensures a[i + 1..] == old(a[i + 1..])
  {
    var x := a[i];
    ghost var sorted := a[..i];
    ghost var rest := a[i + 1..];
    var j := i;
    while j > 0 && !Precedes(side, a[j - 1], x)
      invariant 0 <= j <= i
      invariant a[..j] == sorted[..j]
      invariant a[j + 1..i + 1] == sorted[j..]
      invariant a[i + 1..] == rest
      invariant forall k :: j <= k < i ==> !Precedes(side, sorted[k], x)
    {
      a[j] := a[j - 1];
      j := j - 1;
    }
    a[j] := x;
    InsertSplit(side, x, sorted, j);
    assert a[..i + 1] == a[..j] + [x] + a[j + 1..i + 1];
  }

  /** Stable in-place insertion sort of `a`, in the order the comparator for `side` asks. */
  method SortInPlace(side: Side, a: array<Entry>)
    modifies a
    ensures a[..] == SortBy(side, old(a[..]))
  {
    ghost var input := a[..];
    var i := 0;
    while i < a.Length
      invariant 0 <= i <= a.Length
      invariant a[..i] == SortBy(side, input[..i])
      invariant a[i..] == input[i..]
    {
      assert a[i] == a[i..][0] == input[i];
      InsertInPlace(side, a, i);
      assert input[..i + 1] == input[..i] + [input[i]];
      assert a[i + 1..] == input[i + 1..];
      i := i + 1;
    }
    assert a[..] == a[..a.Length];
    assert input[..a.Length] == input;
  }
}
