/**
 * Cumulative depth (src/components/Orderbook3D.tsx:343-353): after sorting, one
 * pass per side keeps a running total of quantity and writes it into each entry.
 */
module Depth {
  import opened Wrappers
  import opened OrderbookTypes

  /** Reference definition: entry i carries the total quantity of positions 0..i. */
  function Accumulate(s: seq<Entry>): (r: seq<Entry>)
    ensures |r| == |s|
  {
    seq(|s|, i requires 0 <= i < |s| => s[i].(cumulativeQuantity := Some(Volume(s[..i + 1]))))
  }

  /** The `forEach` pass: writes the running total into every entry of `a`, in place. */
  method FillCumulative(a: array<Entry>)
    modifies a
    ensures a[..] == Accumulate(old(a[..]))
  {
    ghost var input := a[..];
    var total := 0.0;
    var i := 0;
    while i < a.Length
      invariant 0 <= i <= a.Length
      invariant total == Volume(input[..i])
      invariant forall k :: 0 <= k < i ==> a[k] == input[k].(cumulativeQuantity := Some(Volume(input[..k + 1])))
      invariant forall k :: i <= k < a.Length ==> a[k] == input[k]
    {
      assert input[..i + 1][..i] == input[..i];
      total := total + a[i].quantity;
      a[i] := a[i].(cumulativeQuantity := Some(total));
      i := i + 1;
    }
  }

  /** Each side's depth pass touches only `cumulativeQuantity`, and the last entry carries the side's total. */
  lemma AccumulateKeepsLevels(s: seq<Entry>)
    ensures forall i :: 0 <= i < |s| ==>
      Accumulate(s)[i].(cumulativeQuantity := s[i].cumulativeQuantity) == s[i]
    ensures |s| > 0 ==> Accumulate(s)[|s| - 1].cumulativeQuantity == Some(Volume(s))
  {
    if |s| > 0 {
      assert s[..|s|] == s;
    }
  }

  lemma {:induction false} VolumePrefixMonotone(s: seq<Entry>, i: nat, j: nat)
    requires NonNegativeQuantities(s)
    requires i <= j <= |s|
    ensures Volume(s[..i]) <= Volume(s[..j])
    decreases j - i
  {
    if i < j {
      VolumePrefixMonotone(s, i, j - 1);
      assert s[..j][..j - 1] == s[..j - 1];
    }
  }

  /** With non-negative quantities the cumulative quantity never decreases along a side. */
  lemma CumulativeNonDecreasing(s: seq<Entry>)
    requires NonNegativeQuantities(s)
    ensures forall i, j :: 0 <= i <= j < |s| ==>
      Accumulate(s)[i].cumulativeQuantity.value <= Accumulate(s)[j].cumulativeQuantity.value
  {
    forall i, j | 0 <= i <= j < |s|
      ensures Accumulate(s)[i].cumulativeQuantity.value <= Accumulate(s)[j].cumulativeQuantity.value
    {
      VolumePrefixMonotone(s, i + 1, j + 1);
    }
  }
}
