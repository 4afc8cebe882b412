/** `array.sort((a, b) => time(b) - time(a))`, the newest-first ordering both the validation
    stream and the validation dashboard apply in place to an array of records. */
module Sorting {

  /** No record comes before a strictly newer one. */
  ghost predicate NewestFirst<T>(s: seq<T>, time: T -> int) {
    forall i, j :: 0 <= i < j < |s| ==> time(s[i]) >= time(s[j])
  }

  /** Sorts `a` in place, newest first, by insertion. */
  method SortNewestFirst<T>(a: array<T>, time: T -> int)
    modifies a
    ensures NewestFirst(a[..], time)
    ensures multiset(a[..]) == multiset(old(a[..]))
  {
    var i := 0;
    while i < a.Length
      invariant 0 <= i <= a.Length
      invariant NewestFirst(a[..i], time)
      invariant multiset(a[..]) == multiset(old(a[..]))
    {
      Insert(a, i, time);
      i := i + 1;
    }
    assert a[..a.Length] == a[..];
  }

  /** Moves `a[i]` towards the front past every strictly older record, extending the sorted
      prefix by one. */
  method Insert<T>(a: array<T>, i: int, time: T -> int)
    requires 0 <= i < a.Length
    requires NewestFirst(a[..i], time)
    modifies a
    ensures NewestFirst(a[..i + 1], time)
    ensures multiset(a[..]) == multiset(old(a[..]))
  {
    var j := i;
    while j > 0 && time(a[j - 1]) < time(a[j])
      invariant 0 <= j <= i
      invariant multiset(a[..]) == multiset(old(a[..]))
      invariant forall p, q :: 0 <= p < q <= i && q != j ==> time(a[p]) >= time(a[q])
      invariant 0 < j < i ==> time(a[j - 1]) >= time(a[j + 1])
    {
      Swap(a, j - 1, j);
      j := j - 1;
    }
  }

  method Swap<T>(a: array<T>, p: int, q: int)
    requires 0 <= p < q < a.Length
    modifies a
    ensures a[p] == old(a[q]) && a[q] == old(a[p])
    ensures forall k :: 0 <= k < a.Length && k != p && k != q ==> a[k] == old(a[k])
    ensures multiset(a[..]) == multiset(old(a[..]))
  {
    a[p], a[q] := a[q], a[p];
  }
}
