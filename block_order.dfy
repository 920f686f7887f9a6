/**
 * Both history tables sort the fetched log array in place with
 * `logs.sort((a, b) => Number(b.blockNumber - a.blockNumber))`, i.e. by
 * descending block number. The sort here is an insertion sort that only swaps
 * strictly out-of-order neighbours, so like `Array.prototype.sort` it keeps
 * logs of the same block in their fetched order.
 */
module BlockOrder {

  /** Every element's block number is at least that of every later element. */
  ghost predicate DescendingBy<T>(s: seq<T>, block: T -> nat)
  {
    forall k, l :: 0 <= k < l < |s| ==> block(s[k]) >= block(s[l])
  }

  /** Sorts `a` in place by descending `block`, permuting its elements. */
  method SortByBlockDesc<T>(a: array<T>, block: T -> nat)
    modifies a
    ensures DescendingBy(a[..], block)
    ensures multiset(a[..]) == multiset(old(a[..]))
  {
    var i := 0;
    while i < a.Length
      invariant 0 <= i <= a.Length
      invariant DescendingBy(a[..i], block)
      invariant multiset(a[..]) == multiset(old(a[..]))
    {
      var j := i;
      while j > 0 && block(a[j - 1]) < block(a[j])
        invariant 0 <= j <= i
        invariant forall k, l :: 0 <= k < l <= i && l != j ==> block(a[k]) >= block(a[l])
        invariant multiset(a[..]) == multiset(old(a[..]))
      {
        SwapWithPrevious(a, j);
        j := j - 1;
      }
      i := i + 1;
    }
  }

  /** Exchanges `a[j - 1]` and `a[j]`, leaving the rest of `a` as it was. */
  method SwapWithPrevious<T>(a: array<T>, j: int)
    requires 0 < j < a.Length
    modifies a
    ensures a[j - 1] == old(a[j]) && a[j] == old(a[j - 1])
    ensures forall k :: 0 <= k < a.Length && k != j - 1 && k != j ==> a[k] == old(a[k])
    ensures multiset(a[..]) == multiset(old(a[..]))
  {
    a[j - 1], a[j] := a[j], a[j - 1];
  }
}
