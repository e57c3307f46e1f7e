/** The in-place sort by timestamp both list handlers apply to their records (main.py:273 sorts
    ascending, main.py:326 with `reverse=True` descending). Written as an insertion sort by
    adjacent swaps; what is proved is what `list.sort` promises: ordered by key, same elements. */
module Sorting {

  /** `x` may stand before `y`. */
  predicate InOrder(x: int, y: int, descending: bool) {
    if descending then x >= y else x <= y
  }

  /** Every earlier element may stand before every later one. */
  predicate SortedBy<T>(s: seq<T>, key: T -> int, descending: bool) {
    forall i, j :: 0 <= i < j < |s| ==> InOrder(key(s[i]), key(s[j]), descending)
  }

  method Swap<T>(a: array<T>, i: int, j: int)
    requires 0 <= i < j < a.Length
    modifies a
    ensures a[i] == old(a[j]) && a[j] == old(a[i])
    ensures forall m :: 0 <= m < a.Length && m != i && m != j ==> a[m] == old(a[m])
    ensures multiset(a[..]) == multiset(old(a[..]))
  {
    a[i], a[j] := a[j], a[i];
  }

  /** Sorts `a` in place by `key`, ascending or (when `descending`) descending. */
  method SortByKey<T>(a: array<T>, key: T -> int, descending: bool)
    modifies a
    ensures SortedBy(a[..], key, descending)
    ensures multiset(a[..]) == multiset(old(a[..]))
  {
    var i := 0;
    while i < a.Length
      invariant 0 <= i <= a.Length
      invariant forall p, q :: 0 <= p < q < i ==> InOrder(key(a[p]), key(a[q]), descending)
      invariant multiset(a[..]) == multiset(old(a[..]))
    {
      // Sink a[i] into the sorted prefix a[..i].
      var j := i;
      while j > 0 && !InOrder(key(a[j - 1]), key(a[j]), descending)
        invariant 0 <= j <= i
        invariant forall p, q :: 0 <= p < q <= i && p != j && q != j ==> InOrder(key(a[p]), key(a[q]), descending)
        invariant forall q :: j < q <= i ==> InOrder(key(a[j]), key(a[q]), descending)
        invariant multiset(a[..]) == multiset(old(a[..]))
      {
        Swap(a, j - 1, j);
        j := j - 1;
      }
      i := i + 1;
    }
  }

  /** `records.sort(key=..., reverse=descending)` on a list: the list's elements are put into an
      array, sorted there in place, and read back. */
  method SortList<T>(records: seq<T>, key: T -> int, descending: bool) returns (sorted: seq<T>)
    ensures SortedBy(sorted, key, descending)
    ensures multiset(sorted) == multiset(records)
    ensures |sorted| == |records|
  {
    var a := new T[|records|](i requires 0 <= i < |records| => records[i]);
    assert a[..] == records;
    SortByKey(a, key, descending);
    sorted := a[..];
    assert |multiset(sorted)| == |multiset(records)|;
  }
}
