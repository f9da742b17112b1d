/**
 * What the view shows (src/components/Orderbook3D.tsx:356-387): the ranked,
 * accumulated lists filtered by venue, quantity and price range and cut to
 * MAX_ORDERS, and the bounded history of displayed snapshots.
 */
module Display {
  import opened OrderbookTypes
  import opened Ranking
  import opened Recent

  /** Number of snapshots kept per side in `orderHistory`. */
  const HistoryLength: nat := 60

  /** The filter predicate applied to every ranked entry. */
  predicate Passes(e: Entry, venues: map<string, VenueConfig>, f: Filters) {
    && IsEnabled(venues, e.venue)
    && e.quantity >= f.quantityThreshold
    && (f.priceRangeMin == 0.0 || e.price >= f.priceRangeMin)
    && (f.priceRangeMax == 0.0 || e.price <= f.priceRangeMax)
  }

  /** `Array.prototype.filter` with `Passes`. */
  function KeepPassing(s: seq<Entry>, venues: map<string, VenueConfig>, f: Filters): (r: seq<Entry>)
    ensures |r| <= |s|
    ensures forall e :: e in r <==> e in s && Passes(e, venues, f)
    decreases |s|
  {
    if s == [] then []
    else (if Passes(s[0], venues, f) then [s[0]] else []) + KeepPassing(s[1..], venues, f)
  }

  /** `.filter(...).slice(0, MAX_ORDERS)`. */
  function Displayed(s: seq<Entry>, venues: map<string, VenueConfig>, f: Filters): (r: seq<Entry>)
    ensures |r| == if |KeepPassing(s, venues, f)| < MaxOrders then |KeepPassing(s, venues, f)| else MaxOrders
    ensures r <= KeepPassing(s, venues, f)
    ensures forall i :: 0 <= i < |r| ==> Passes(r[i], venues, f)
  {
    var kept := KeepPassing(s, venues, f);
    if |kept| <= MaxOrders then kept else kept[..MaxOrders]
  }

  /** `idx` picks out `r` from `s` at strictly increasing positions. */
  ghost predicate SubsequenceAt(r: seq<Entry>, s: seq<Entry>, idx: seq<int>) {
    && |idx| == |r|
    && (forall k :: 0 <= k < |idx| ==> 0 <= idx[k] < |s| && r[k] == s[idx[k]])
    && (forall k, l :: 0 <= k < l < |idx| ==> idx[k] < idx[l])
  }

  /** A selection from `s[1..]` is a selection from `s` at positions one further on. */
  lemma SubsequenceOfTail(r: seq<Entry>, s: seq<Entry>, idx: seq<int>) returns (shifted: seq<int>)
    requires |s| > 0 && SubsequenceAt(r, s[1..], idx)
    ensures SubsequenceAt(r, s, shifted)
    ensures forall k :: 0 <= k < |shifted| ==> shifted[k] > 0
  {
    shifted := seq(|idx|, k requires 0 <= k < |idx| => idx[k] + 1);
    forall k | 0 <= k < |shifted| ensures 0 <= shifted[k] < |s| && r[k] == s[shifted[k]] {
      assert r[k] == s[1..][idx[k]];
    }
  }

  /** Selecting `s[0]` in front of a selection from later positions is again a selection. */
  lemma SubsequenceCons(r: seq<Entry>, s: seq<Entry>, idx: seq<int>) returns (idx': seq<int>)
    requires |s| > 0 && SubsequenceAt(r, s, idx)
    requires forall k :: 0 <= k < |idx| ==> idx[k] > 0
    ensures SubsequenceAt([s[0]] + r, s, idx')
  {
    idx' := [0] + idx;
    var r' := [s[0]] + r;
    forall k | 0 <= k < |idx'| ensures 0 <= idx'[k] < |s| && r'[k] == s[idx'[k]] {
      if k > 0 {
        assert idx'[k] == idx[k - 1] && r'[k] == r[k - 1];
      }
    }
    forall k, l | 0 <= k < l < |idx'| ensures idx'[k] < idx'[l] {
      if k > 0 {
        assert idx'[k] == idx[k - 1] && idx'[l] == idx[l - 1];
      }
    }
  }

  /** The filtered list is an order-preserving subsequence of its input. */
  lemma {:induction false} KeepPassingIsSubsequence(s: seq<Entry>, venues: map<string, VenueConfig>, f: Filters)
    returns (idx: seq<int>)
    ensures SubsequenceAt(KeepPassing(s, venues, f), s, idx)
    decreases |s|
  {
    if s == [] {
      idx := [];
    } else {
      var rest := KeepPassing(s[1..], venues, f);
      var tail := KeepPassingIsSubsequence(s[1..], venues, f);
      var shifted := SubsequenceOfTail(rest, s, tail);
      if Passes(s[0], venues, f) {
        assert KeepPassing(s, venues, f) == [s[0]] + rest;
        idx := SubsequenceCons(rest, s, shifted);
      } else {
        assert KeepPassing(s, venues, f) == rest;
        idx := shifted;
      }
    }
  }

  /** The displayed list is an order-preserving subsequence of the ranked list. */
  lemma DisplayedIsSubsequence(s: seq<Entry>, venues: map<string, VenueConfig>, f: Filters)
    returns (idx: seq<int>)
    ensures SubsequenceAt(Displayed(s, venues, f), s, idx)
  {
    var all := KeepPassingIsSubsequence(s, venues, f);
    idx := all[..|Displayed(s, venues, f)|];
  }

  lemma SubsequenceKeepsOrder(side: Side, r: seq<Entry>, s: seq<Entry>, idx: seq<int>)
    requires SortedBy(side, s)
    requires SubsequenceAt(r, s, idx)
    ensures SortedBy(side, r)
  {
    forall i, j | 0 <= i < j < |r| ensures Precedes(side, r[i], r[j]) {
      assert idx[i] < idx[j];
    }
  }

  /** Filtering and truncation keep a ranked list ranked, and keep each entry (with its cumulative quantity) unchanged. */
  lemma DisplayedKeepsRanking(side: Side, s: seq<Entry>, venues: map<string, VenueConfig>, f: Filters)
    requires SortedBy(side, s)
    ensures SortedBy(side, Displayed(s, venues, f))
    ensures forall e :: e in Displayed(s, venues, f) ==> e in s
  {
    var idx := DisplayedIsSubsequence(s, venues, f);
    SubsequenceKeepsOrder(side, Displayed(s, venues, f), s, idx);
  }

  /** `[...prev.slice(-59), snapshot]`: the latest 60 of the history with the snapshot appended. */
  function AppendSnapshot(history: seq<seq<Entry>>, snapshot: seq<Entry>): (r: seq<seq<Entry>>)
    ensures 0 < |r| <= HistoryLength && r[|r| - 1] == snapshot
    ensures r == Latest(history + [snapshot], HistoryLength)
  {
    var kept := if |history| <= HistoryLength - 1 then history else history[|history| - (HistoryLength - 1)..];
    assert |history| > HistoryLength - 1 ==>
      kept + [snapshot] == (history + [snapshot])[|history| + 1 - HistoryLength..];
    kept + [snapshot]
  }

  /** The history after a run of updates. */
  function AppendAll(history: seq<seq<Entry>>, snapshots: seq<seq<Entry>>): seq<seq<Entry>>
    decreases |snapshots|
  {
    if snapshots == [] then history
    else AppendSnapshot(AppendAll(history, snapshots[..|snapshots| - 1]), snapshots[|snapshots| - 1])
  }

  /** After any run of updates the history holds the most recent snapshots, at most 60, oldest first. */
  lemma {:induction false} HistoryKeepsLatest(history: seq<seq<Entry>>, snapshots: seq<seq<Entry>>)
    requires |history| <= HistoryLength
    ensures AppendAll(history, snapshots) == Latest(history + snapshots, HistoryLength)
    decreases |snapshots|
  {
    if snapshots == [] {
      assert history + snapshots == history;
    } else {
      var init, last := snapshots[..|snapshots| - 1], snapshots[|snapshots| - 1];
      HistoryKeepsLatest(history, init);
      LatestSnoc(history + init, last, HistoryLength);
      assert history + snapshots == (history + init) + [last];
    }
  }
}
