/** Sorting a list of (finite) doubles into ascending order, as `java.util.Arrays.sort`
    does, and the rank facts that make an element of the sorted list an order statistic. */
module Sorting {

  predicate Ascending(s: seq<real>)
  {
    forall i, j :: 0 <= i < j < |s| ==> s[i] <= s[j]
  }

  /** Inserts `x` in front of the first element that is not smaller than it. */
  function Insert(x: real, s: seq<real>): (r: seq<real>)
    ensures multiset(r) == multiset(s) + multiset{x}
    ensures |r| == |s| + 1
  {
    if s == [] then [x]
    else if x <= s[0] then [x] + s
    else
      assert s == [s[0]] + s[1..];
      [s[0]] + Insert(x, s[1..])
  }

  lemma {:induction false} InsertAscending(x: real, s: seq<real>)
    requires Ascending(s)
    ensures Ascending(Insert(x, s))
  {
    var r := Insert(x, s);
    if s == [] {
    } else if x <= s[0] {
      forall i, j | 0 <= i < j < |r| ensures r[i] <= r[j] {
        if i == 0 { assert s[0] <= s[j - 1]; }
      }
    } else {
      var rest := Insert(x, s[1..]);
      InsertAscending(x, s[1..]);
      InsertAbove(x, s[1..], s[0]);
      assert r == [s[0]] + rest;
      forall i, j | 0 <= i < j < |r| ensures r[i] <= r[j] {
        if i > 0 {
          assert r[i] == rest[i - 1] && r[j] == rest[j - 1];
        } else {
          assert r[j] == rest[j - 1];
        }
      }
    }
  }

  /** A lower bound of `x` and of every element of `s` bounds the result of inserting. */
  lemma {:induction false} InsertAbove(x: real, s: seq<real>, lo: real)
    requires lo <= x && forall k :: 0 <= k < |s| ==> lo <= s[k]
    ensures forall k :: 0 <= k < |Insert(x, s)| ==> lo <= Insert(x, s)[k]
  {
    if s != [] && x > s[0] {
      InsertAbove(x, s[1..], lo);
    }
  }

  /** The ascending permutation of `s` (the model of `Arrays.sort`). */
  function SortAscending(s: seq<real>): (r: seq<real>)
    ensures Ascending(r)
    ensures multiset(r) == multiset(s)
    ensures |r| == |s|
  {
    if s == [] then []
    else
      assert s == [s[0]] + s[1..];
      InsertAscending(s[0], SortAscending(s[1..]));
      Insert(s[0], SortAscending(s[1..]))
  }

  /** There is only one ascending arrangement of a multiset, so any sorting algorithm
      (the library's dual-pivot quicksort included) produces `SortAscending(s)`. */
  lemma {:induction false} AscendingPermutationUnique(a: seq<real>, b: seq<real>)
    requires Ascending(a) && Ascending(b)
    requires multiset(a) == multiset(b)
    ensures a == b
  {
    assert |a| == |multiset(a)| == |multiset(b)| == |b|;
    if a != [] {
      SameMinimum(a, b);
      SameTails(a, b);
      TailAscending(a);
      TailAscending(b);
      AscendingPermutationUnique(a[1..], b[1..]);
      assert a == [a[0]] + a[1..] && b == [b[0]] + b[1..];
    }
  }

  /** Two ascending arrangements of one multiset start with the same (least) element. */
  lemma SameMinimum(a: seq<real>, b: seq<real>)
    requires Ascending(a) && Ascending(b) && a != [] && b != []
    requires multiset(a) == multiset(b)
    ensures a[0] == b[0]
  {
    assert a[0] in multiset(b);
    var j :| 0 <= j < |b| && b[j] == a[0];
    assert b[0] in multiset(a);
    var i :| 0 <= i < |a| && a[i] == b[0];
    assert a[0] <= a[i] by { if i > 0 { assert a[0] <= a[i]; } }
    assert b[0] <= b[j] by { if j > 0 { assert b[0] <= b[j]; } }
  }

  lemma SameTails(a: seq<real>, b: seq<real>)
    requires a != [] && b != [] && a[0] == b[0]
    requires multiset(a) == multiset(b)
    ensures multiset(a[1..]) == multiset(b[1..])
  {
    assert a == [a[0]] + a[1..] && b == [b[0]] + b[1..];
    assert multiset(a[1..]) == multiset(a) - multiset{a[0]};
    assert multiset(b[1..]) == multiset(b) - multiset{b[0]};
  }

  lemma TailAscending(s: seq<real>)
    requires Ascending(s) && s != []
    ensures Ascending(s[1..])
  {
    forall p, q | 0 <= p < q < |s| - 1 ensures s[1..][p] <= s[1..][q] {
      assert s[p + 1] <= s[q + 1];
    }
  }

  /** How many elements are at most `m`. */
  function CountAtMost(s: seq<real>, m: real): (n: nat)
    ensures n <= |s|
  {
    if s == [] then 0 else (if s[0] <= m then 1 else 0) + CountAtMost(s[1..], m)
  }

  /** How many elements are at least `m`. */
  function CountAtLeast(s: seq<real>, m: real): (n: nat)
    ensures n <= |s|
  {
    if s == [] then 0 else (if s[0] >= m then 1 else 0) + CountAtLeast(s[1..], m)
  }

  lemma {:induction false} InsertCounts(x: real, s: seq<real>, m: real)
    ensures CountAtMost(Insert(x, s), m) == CountAtMost(s, m) + (if x <= m then 1 else 0)
    ensures CountAtLeast(Insert(x, s), m) == CountAtLeast(s, m) + (if x >= m then 1 else 0)
  {
    if s != [] && x > s[0] {
      InsertCounts(x, s[1..], m);
      var r := Insert(x, s);
      assert r[1..] == Insert(x, s[1..]);
    }
  }

  /** Sorting does not change how many elements lie on either side of a threshold. */
  lemma {:induction false} SortCounts(s: seq<real>, m: real)
    ensures CountAtMost(SortAscending(s), m) == CountAtMost(s, m)
    ensures CountAtLeast(SortAscending(s), m) == CountAtLeast(s, m)
  {
    if s != [] {
      SortCounts(s[1..], m);
      InsertCounts(s[0], SortAscending(s[1..]), m);
    }
  }

  lemma {:induction false} CountAtMostPrefix(t: seq<real>, m: real, n: nat)
    requires n <= |t|
    requires forall i :: 0 <= i < n ==> t[i] <= m
    ensures CountAtMost(t, m) >= n
  {
    if n > 0 {
      CountAtMostPrefix(t[1..], m, n - 1);
    }
  }

  lemma {:induction false} CountAtLeastSuffix(t: seq<real>, m: real, k: nat)
    requires k <= |t|
    requires forall i :: k <= i < |t| ==> t[i] >= m
    ensures CountAtLeast(t, m) >= |t| - k
  {
    if t != [] {
      if k > 0 {
        CountAtLeastSuffix(t[1..], m, k - 1);
      } else {
        CountAtLeastSuffix(t[1..], m, 0);
      }
    }
  }

  lemma AscendingRanks(t: seq<real>, k: nat)
    requires Ascending(t) && k < |t|
    ensures CountAtMost(t, t[k]) >= k + 1
    ensures CountAtLeast(t, t[k]) >= |t| - k
  {
    var m := t[k];
    assert forall i :: 0 <= i < k + 1 ==> t[i] <= m by {
      forall i | 0 <= i < k + 1 ensures t[i] <= m {
        if i < k { assert t[i] <= t[k]; }
      }
    }
    CountAtMostPrefix(t, m, k + 1);
    assert forall i :: k <= i < |t| ==> t[i] >= m by {
      forall i | k <= i < |t| ensures t[i] >= m {
        if i > k { assert t[k] <= t[i]; }
      }
    }
    CountAtLeastSuffix(t, m, k);
  }

  /** The element at position `k` of the sorted list is an order statistic of the input:
      at least `k + 1` inputs are at most it and at least `|s| - k` are at least it. */
  lemma OrderStatistic(s: seq<real>, k: nat)
    requires k < |s|
    ensures SortAscending(s)[k] in multiset(s)
    ensures CountAtMost(s, SortAscending(s)[k]) >= k + 1
    ensures CountAtLeast(s, SortAscending(s)[k]) >= |s| - k
  {
    var t := SortAscending(s);
    assert t[k] in multiset(t);
    AscendingRanks(t, k);
    SortCounts(s, t[k]);
  }
}
