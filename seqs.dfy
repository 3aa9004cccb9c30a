/**
 * The list operations the services use on query results: keeping the
 * elements that satisfy a condition (a stream `filter`, or a repository
 * query derived from field names) and a stable sort by a key in descending
 * order (`List.sort` with a reversed comparator, which is a stable merge sort).
 */
module Seqs {

  /** Concatenation is associative. */
  lemma AppendAssoc<T>(a: seq<T>, b: seq<T>, c: seq<T>)
    ensures (a + b) + c == a + (b + c)
  {
  }

  /** The elements of `s` that satisfy `p`, in their order in `s`. */
  function Filter<T(!new)>(s: seq<T>, p: T -> bool): (r: seq<T>)
    ensures |r| <= |s|
    ensures forall x :: x in r <==> x in s && p(x)
    ensures forall i :: 0 <= i < |r| ==> p(r[i])
    decreases |s|
  {
    if s == [] then []
    else if p(s[0]) then [s[0]] + Filter(s[1..], p)
    else Filter(s[1..], p)
  }

  lemma {:induction false} FilterAppend<T(!new)>(s: seq<T>, t: seq<T>, p: T -> bool)
    ensures Filter(s + t, p) == Filter(s, p) + Filter(t, p)
    decreases |s|
  {
    if s != [] {
      assert (s + t)[0] == s[0] && (s + t)[1..] == s[1..] + t;
      FilterAppend(s[1..], t, p);
      if p(s[0]) {
        assert Filter(s + t, p) == [s[0]] + Filter(s[1..] + t, p);
        assert [s[0]] + (Filter(s[1..], p) + Filter(t, p)) == ([s[0]] + Filter(s[1..], p)) + Filter(t, p);
      }
    } else {
      assert s + t == t;
    }
  }

  /** When no element satisfies `p`, nothing is kept. */
  lemma {:induction false} FilterNone<T(!new)>(s: seq<T>, p: T -> bool)
    requires forall i :: 0 <= i < |s| ==> !p(s[i])
    ensures Filter(s, p) == []
    decreases |s|
  {
    if s != [] {
      FilterNone(s[1..], p);
    }
  }

  /** `Filter` keeps each element exactly as often as it occurs, when it satisfies `p`. */
  lemma {:induction false} FilterMultiset<T(!new)>(s: seq<T>, p: T -> bool, x: T)
    ensures multiset(Filter(s, p))[x] == if p(x) then multiset(s)[x] else 0
    decreases |s|
  {
    if s != [] {
      FilterMultiset(s[1..], p, x);
      assert s == [s[0]] + s[1..];
    }
  }

  /** Sorted by `key`, largest first. */
  predicate SortedDesc<T>(s: seq<T>, key: T -> int) {
    forall i, j :: 0 <= i < j < |s| ==> key(s[i]) >= key(s[j])
  }

  /**
   * Stable sort by `key`, largest first: equal keys keep their input order.
   * Sorting `s` is inserting its last element into the sorted rest; ties go
   * behind the elements already placed, which came earlier in `s`.
   */
  function SortDesc<T>(s: seq<T>, key: T -> int): (r: seq<T>)
    ensures multiset(r) == multiset(s)
    ensures |r| == |s|
    decreases |s|
  {
    if s == [] then []
    else
      assert s == s[..|s| - 1] + [s[|s| - 1]];
      InsertDescLast(SortDesc(s[..|s| - 1], key), s[|s| - 1], key)
  }

  /** Insert `x` into a sorted list behind every element whose key is at least `x`'s. */
  function InsertDescLast<T>(s: seq<T>, x: T, key: T -> int): (r: seq<T>)
    ensures multiset(r) == multiset(s) + multiset{x}
    ensures |r| == |s| + 1
    decreases |s|
  {
    if s == [] then [x]
    else if key(s[|s| - 1]) >= key(x) then s + [x]
    else
      assert s == s[..|s| - 1] + [s[|s| - 1]];
      InsertDescLast(s[..|s| - 1], x, key) + [s[|s| - 1]]
  }

  lemma {:induction false} InsertDescLastSorted<T>(s: seq<T>, x: T, key: T -> int)
    requires SortedDesc(s, key)
    ensures SortedDesc(InsertDescLast(s, x, key), key)
    decreases |s|
  {
    if s != [] && key(s[|s| - 1]) < key(x) {
      var init := s[..|s| - 1];
      InsertDescLastSorted(init, x, key);
      var t := InsertDescLast(init, x, key);
      forall k | 0 <= k < |t| ensures key(t[k]) >= key(s[|s| - 1]) {
        assert t[k] in multiset(init) + multiset{x};
        if t[k] != x {
          var j :| 0 <= j < |init| && init[j] == t[k];
          assert s[j] == t[k];
        }
      }
    }
  }

  /** The result of `SortDesc` is sorted, largest key first. */
  lemma {:induction false} SortDescSorted<T>(s: seq<T>, key: T -> int)
    ensures SortedDesc(SortDesc(s, key), key)
    decreases |s|
  {
    if s != [] {
      SortDescSorted(s[..|s| - 1], key);
      InsertDescLastSorted(SortDesc(s[..|s| - 1], key), s[|s| - 1], key);
    }
  }
}
