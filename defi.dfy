/**
 * The top DeFi protocols panel: the first five protocols of the feed, copied
 * and then sorted in place by total value locked, largest first.
 */
module Defi {
  import opened Wrappers
  import opened Market

  /** How many protocols of the feed the panel shows. */
  const TopCount: nat := 5

  /** Non-increasing by total value locked. */
  ghost predicate DescendingByTvl(s: seq<Protocol>)
  {
    forall p, q :: 0 <= p < q < |s| ==> s[p].tvl >= s[q].tvl
  }

  /** The first n cells of the array are non-increasing by value locked. */
  ghost predicate DescendingUpTo(a: array<Protocol>, n: nat)
    reads a
  {
    forall p, q :: 0 <= p < q < n && q < a.Length ==> a[p].tvl >= a[q].tvl
  }

  /** Exchanges the protocol at index j with the one before it. */
  method SwapWithPrevious(a: array<Protocol>, j: nat)
    requires 0 < j < a.Length
    modifies a
    ensures a[j - 1] == old(a[j]) && a[j] == old(a[j - 1])
    ensures forall p :: 0 <= p < a.Length && p != j - 1 && p != j ==> a[p] == old(a[p])
    ensures multiset(a[..]) == multiset(old(a[..]))
  {
    a[j - 1], a[j] := a[j], a[j - 1];
  }

  /**
   * One insertion step: the protocol at index i moves left, one swap at a
   * time, past every protocol with a smaller value locked.
   */
  method InsertByTvl(a: array<Protocol>, i: nat)
    requires i < a.Length && DescendingUpTo(a, i)
    modifies a
    ensures DescendingUpTo(a, i + 1)
    ensures multiset(a[..]) == multiset(old(a[..]))
    ensures a[i + 1..] == old(a[i + 1..])
  {
    var j := i;
    while j > 0 && a[j - 1].tvl < a[j].tvl
      invariant 0 <= j <= i
      invariant multiset(a[..]) == multiset(old(a[..]))
      invariant a[i + 1..] == old(a[i + 1..])
      invariant forall p, q :: 0 <= p < q <= i && p != j && q != j ==> a[p].tvl >= a[q].tvl
      invariant forall q :: j < q <= i ==> a[j].tvl > a[q].tvl
    {
      SwapWithPrevious(a, j);
      j := j - 1;
    }
  }

  /**
   * `sort((a, b) => b.tvl - a.tvl)` as an insertion sort over the array:
   * afterwards it is non-increasing by value locked and holds the same protocols.
   */
  method SortByTvlDescending(a: array<Protocol>)
    modifies a
    ensures DescendingByTvl(a[..])
    ensures multiset(a[..]) == multiset(old(a[..]))
  {
    for i := 0 to a.Length
      invariant DescendingUpTo(a, i)
      invariant multiset(a[..]) == multiset(old(a[..]))
    {
      InsertByTvl(a, i);
    }
  }

  /**
   * `topDefiProtocols`: nothing without a feed; otherwise at most five
   * protocols, exactly the first five of the feed, largest value locked first.
   */
  method TopDefiProtocols(defiData: Option<seq<Protocol>>) returns (top: Option<seq<Protocol>>)
    ensures defiData.None? <==> top.None?
    ensures defiData.Some? ==>
      var k := if |defiData.value| < TopCount then |defiData.value| else TopCount;
      |top.value| == k &&
      multiset(top.value) == multiset(defiData.value[..k]) &&
      DescendingByTvl(top.value)
  {
    if defiData.None? {
      return None;
    }
    var protocols := defiData.value;
    var k := if |protocols| < TopCount then |protocols| else TopCount;
    var first := new Protocol[k](i requires 0 <= i < k => protocols[i]);
    assert first[..] == protocols[..k];
    SortByTvlDescending(first);
    top := Some(first[..]);
  }
}
