/** Sequence operations behind the queries and the recent-activity feed:
    a stable sort by a numeric key, newest (largest key) first; the merge of two
    such sorted lists; taking a prefix (`.limit(n)`, `.slice(0, n)`); and sums. */
module Seqs {

  /** Keys never increase along `s`: the order `.sort({date: -1})` promises. */
  predicate SortedDesc<T>(key: T -> int, s: seq<T>) {
    forall i, j :: 0 <= i < j < |s| ==> key(s[i]) >= key(s[j])
  }

  /** Inserts `x` into the sorted `s` ahead of every element whose key is not larger,
      so that `x` stays before the elements that followed it in the input. */
  function Insert<T>(key: T -> int, x: T, s: seq<T>): (r: seq<T>)
    requires SortedDesc(key, s)
    ensures SortedDesc(key, r)
    ensures multiset(r) == multiset(s) + multiset{x}
    ensures |r| == |s| + 1
    ensures r[0] == x || (s != [] && r[0] == s[0])
  {
    if s == [] || key(x) >= key(s[0]) then [x] + s
    else
      assert s == [s[0]] + s[1..];
      [s[0]] + Insert(key, x, s[1..])
  }

  /** Stable insertion sort, largest key first; elements with equal keys keep their input order. */
  function SortDesc<T>(key: T -> int, s: seq<T>): (r: seq<T>)
    ensures SortedDesc(key, r)
    ensures multiset(r) == multiset(s)
    ensures |r| == |s|
  {
    if s == [] then []
    else
      assert s == [s[0]] + s[1..];
      Insert(key, s[0], SortDesc(key, s[1..]))
  }

  /** The first `n` elements of `s`, or all of `s` when it is shorter. */
  function Take<T>(n: nat, s: seq<T>): (r: seq<T>)
    ensures |r| == if n < |s| then n else |s|
    ensures forall i :: 0 <= i < |r| ==> r[i] == s[i]
  {
    if n < |s| then s[..n] else s
  }

  /** Merges two lists into one, largest key first, preferring `a` on equal keys. */
  function Merge<T>(key: T -> int, a: seq<T>, b: seq<T>): (r: seq<T>)
    ensures |r| == |a| + |b|
    decreases |a| + |b|
  {
    if a == [] then b
    else if b == [] then a
    else if key(a[0]) >= key(b[0]) then [a[0]] + Merge(key, a[1..], b)
    else [b[0]] + Merge(key, a, b[1..])
  }

  /** Merging two sorted lists gives a sorted list. */
  lemma {:induction false} MergeSorted<T>(key: T -> int, a: seq<T>, b: seq<T>)
    requires SortedDesc(key, a) && SortedDesc(key, b)
    ensures SortedDesc(key, Merge(key, a, b))
    ensures Merge(key, a, b) != [] ==>
      (a != [] && Merge(key, a, b)[0] == a[0]) || (b != [] && Merge(key, a, b)[0] == b[0])
    decreases |a| + |b|
  {
    if a != [] && b != [] {
      if key(a[0]) >= key(b[0]) {
        MergeSorted(key, a[1..], b);
      } else {
        MergeSorted(key, a, b[1..]);
      }
    }
  }

  /** No two elements of `s` agree on `f`. */
  predicate DistinctBy<T, K(==)>(f: T -> K, s: seq<T>) {
    forall i, j :: 0 <= i < j < |s| ==> f(s[i]) != f(s[j])
  }

  /** A list with a head is distinct by `f` exactly when its tail is and the head's `f` is new. */
  lemma DistinctCons<T, K>(f: T -> K, x: T, s: seq<T>)
    ensures DistinctBy(f, [x] + s) <==> DistinctBy(f, s) && forall i :: 0 <= i < |s| ==> f(s[i]) != f(x)
  {
    var xs := [x] + s;
    assert forall i :: 0 <= i < |s| ==> xs[i + 1] == s[i];
    if DistinctBy(f, s) && forall i :: 0 <= i < |s| ==> f(s[i]) != f(x) {
      forall i, j | 0 <= i < j < |xs| ensures f(xs[i]) != f(xs[j]) {
        if i == 0 { assert f(xs[j]) == f(s[j - 1]); }
        else { assert f(xs[i]) == f(s[i - 1]) && f(xs[j]) == f(s[j - 1]); }
      }
    }
    if DistinctBy(f, xs) {
      forall i | 0 <= i < |s| ensures f(s[i]) != f(x) {
        assert f(xs[0]) != f(xs[i + 1]);
      }
    }
  }

  /** Inserting an element whose `f` is new keeps the list distinct by `f`. */
  lemma {:induction false} InsertDistinctBy<T, K>(key: T -> int, f: T -> K, x: T, s: seq<T>)
    requires SortedDesc(key, s) && DistinctBy(f, s)
    requires forall i :: 0 <= i < |s| ==> f(s[i]) != f(x)
    ensures DistinctBy(f, Insert(key, x, s))
  {
    var r := Insert(key, x, s);
    if s != [] && key(x) < key(s[0]) {
      var tail := s[1..];
      assert SortedDesc(key, tail) && DistinctBy(f, tail);
      InsertDistinctBy(key, f, x, tail);
      var rt := Insert(key, x, tail);
      assert r == [s[0]] + rt;
      forall i | 0 < i < |r| ensures f(r[i]) != f(s[0]) {
        assert r[i] == rt[i - 1];
        assert r[i] in multiset(tail) + multiset{x};
        if r[i] in tail {
          var k :| 0 <= k < |tail| && tail[k] == r[i];
          assert s[k + 1] == tail[k];
        }
      }
    }
  }

  /** Sorting keeps a list distinct by `f`. */
  lemma {:induction false} SortDistinctBy<T, K>(key: T -> int, f: T -> K, s: seq<T>)
    requires DistinctBy(f, s)
    ensures DistinctBy(f, SortDesc(key, s))
  {
    if s != [] {
      var tail := s[1..];
      assert DistinctBy(f, tail);
      SortDistinctBy(key, f, tail);
      var sorted := SortDesc(key, tail);
      forall i | 0 <= i < |sorted| ensures f(sorted[i]) != f(s[0]) {
        assert sorted[i] in multiset(tail);
        var k :| 0 <= k < |tail| && tail[k] == sorted[i];
        assert s[k + 1] == tail[k];
      }
      InsertDistinctBy(key, f, s[0], sorted);
    }
  }

  /** The sum of `f` over the elements of `s`; `reduce((sum, x) => sum + f(x), 0)`. */
  function Sum<T>(f: T -> int, s: seq<T>): int {
    if s == [] then 0 else f(s[0]) + Sum(f, s[1..])
  }

  /** Sums split over concatenation. */
  lemma {:induction false} SumConcat<T>(f: T -> int, a: seq<T>, b: seq<T>)
    ensures Sum(f, a + b) == Sum(f, a) + Sum(f, b)
  {
    if a != [] {
      assert (a + b)[0] == a[0] && (a + b)[1..] == a[1..] + b;
      assert Sum(f, a + b) == f(a[0]) + Sum(f, a[1..] + b);
      SumConcat(f, a[1..], b);
    } else {
      assert a + b == b;
    }
  }

  /** Inserting `x` adds `f(x)` to the sum. */
  lemma {:induction false} SumInsert<T>(key: T -> int, f: T -> int, x: T, s: seq<T>)
    requires SortedDesc(key, s)
    ensures Sum(f, Insert(key, x, s)) == f(x) + Sum(f, s)
  {
    if s != [] && key(x) < key(s[0]) {
      SumInsert(key, f, x, s[1..]);
    }
  }

  /** Sorting does not change a sum. */
  lemma {:induction false} SumSortDesc<T>(key: T -> int, f: T -> int, s: seq<T>)
    ensures Sum(f, SortDesc(key, s)) == Sum(f, s)
  {
    if s != [] {
      SumSortDesc(key, f, s[1..]);
      SumInsert(key, f, s[0], SortDesc(key, s[1..]));
    }
  }

  /** A prefix of a sorted list is sorted. */
  lemma TakeSorted<T>(key: T -> int, n: nat, s: seq<T>)
    requires SortedDesc(key, s)
    ensures SortedDesc(key, Take(n, s))
  {
  }

  /** Sorting an already sorted list changes nothing. */
  lemma {:induction false} SortSortedIsIdentity<T>(key: T -> int, s: seq<T>)
    requires SortedDesc(key, s)
    ensures SortDesc(key, s) == s
  {
    if s != [] {
      SortSortedIsIdentity(key, s[1..]);
    }
  }

  /** Inserting a head that is not smaller than anything in `a` into the merge of `a` and `b`
      is merging `[x] + a` with `b`. */
  lemma {:induction false} InsertIntoMerge<T>(key: T -> int, x: T, a: seq<T>, b: seq<T>)
    requires SortedDesc(key, [x] + a) && SortedDesc(key, b)
    ensures SortedDesc(key, a) && SortedDesc(key, Merge(key, a, b))
    ensures Insert(key, x, Merge(key, a, b)) == Merge(key, [x] + a, b)
    decreases |b|
  {
    assert SortedDesc(key, a) by {
      forall i, j | 0 <= i < j < |a| ensures key(a[i]) >= key(a[j]) {
        assert a[i] == ([x] + a)[i + 1] && a[j] == ([x] + a)[j + 1];
      }
    }
    MergeSorted(key, a, b);
    var xa := [x] + a;
    assert xa[0] == x && xa[1..] == a;
    if b == [] {
    } else if key(x) >= key(b[0]) {
      if a != [] {
        assert key(x) >= key(xa[1]);
      }
    } else {
      if a != [] {
        assert key(xa[1]) <= key(x);
      }
      InsertIntoMerge(key, x, a, b[1..]);
    }
  }

  /** The stable sort of two sorted lists placed one after the other is their merge. */
  lemma {:induction false} SortConcatIsMerge<T>(key: T -> int, a: seq<T>, b: seq<T>)
    requires SortedDesc(key, a) && SortedDesc(key, b)
    ensures SortDesc(key, a + b) == Merge(key, a, b)
    decreases |a|
  {
    if a == [] {
      assert a + b == b;
      SortSortedIsIdentity(key, b);
    } else {
      assert (a + b)[0] == a[0] && (a + b)[1..] == a[1..] + b;
      assert a == [a[0]] + a[1..];
      InsertIntoMerge(key, a[0], a[1..], b);
      SortConcatIsMerge(key, a[1..], b);
    }
  }

  /** Concatenation is associative. */
  lemma ConcatAssoc<T>(a: seq<T>, b: seq<T>, c: seq<T>)
    ensures a + (b + c) == (a + b) + c
  {
  }

  /** Taking from a list with a known head. */
  lemma TakeCons<T>(n: nat, s: seq<T>)
    requires 0 < n && s != []
    ensures Take(n, s) == [s[0]] + Take(n - 1, s[1..])
  {
  }

  /** The first `n` of a merge only ever draw on the first `n` of each input. */
  lemma {:induction false} TakeMerge<T>(key: T -> int, n: nat, m: nat, k: nat, a: seq<T>, b: seq<T>)
    requires n <= m && n <= k
    ensures Take(n, Merge(key, a, b)) == Take(n, Merge(key, Take(m, a), Take(k, b)))
    decreases n
  {
    var a' := Take(m, a);
    var b' := Take(k, b);
    if n == 0 {
    } else if a == [] {
      assert a' == [];
      assert Take(n, Take(k, b)) == Take(n, b);
    } else if b == [] {
      assert b' == [];
      assert Take(n, Take(m, a)) == Take(n, a);
    } else if key(a[0]) >= key(b[0]) {
      TakeCons(m, a);
      TakeCons(n, Merge(key, a, b));
      TakeCons(n, Merge(key, a', b'));
      TakeMerge(key, n - 1, m - 1, k, a[1..], b);
    } else {
      TakeCons(k, b);
      TakeCons(n, Merge(key, a, b));
      TakeCons(n, Merge(key, a', b'));
      TakeMerge(key, n - 1, m, k - 1, a, b[1..]);
    }
  }
}
