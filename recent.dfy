/**
 * Bounded histories: the order-book snapshot history and the performance
 * monitor's sample windows both keep only the most recent `n` items.
 */
module Recent {
  /** The last `n` items of `s` (all of `s` when it is shorter), oldest first. */
  function Latest<T>(s: seq<T>, n: nat): seq<T> {
    if |s| <= n then s else s[|s| - n..]
  }

  /** Trimming before appending one item gives the same window as trimming after. */
  lemma LatestSnoc<T>(a: seq<T>, x: T, n: nat)
    requires n > 0
    ensures Latest(Latest(a, n) + [x], n) == Latest(a + [x], n)
  {
    if |a| > n {
      var kept := a[|a| - n..];
      assert (kept + [x])[1..] == a[|a| - n + 1..] + [x];
      assert (a + [x])[|a| + 1 - n..] == a[|a| - n + 1..] + [x];
    }
  }
}
