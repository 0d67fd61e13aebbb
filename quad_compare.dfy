/**
 * The lexicographic comparison the solver test uses to compare emitted star-id
 * tuples with the expected ones (compare_n and its fixed-width instances).
 */
module QuadCompare {

  /**
   * compare_n: scan the first n ids and return -1 or 1 at the first index where
   * the tuples differ (by the order of that index), 0 when no index below n does.
   */
  function CompareN(u1: seq<int>, u2: seq<int>, n: nat): (r: int)
    requires n <= |u1| && n <= |u2|
    ensures r == -1 || r == 0 || r == 1
    ensures r == 0 <==> u1[..n] == u2[..n]
    decreases n
  {
    if n == 0 then 0
    else if u1[0] < u2[0] then -1
    else if u1[0] > u2[0] then 1
    else
      var r := CompareN(u1[1..], u2[1..], n - 1);
      assert u1[..n] == [u1[0]] + u1[1..][..n - 1];
      assert u2[..n] == [u2[0]] + u2[1..][..n - 1];
      r
  }

  /** The tuples agree below k and u1 is smaller at k. */
  predicate FirstLessAt(u1: seq<int>, u2: seq<int>, k: nat)
    requires k < |u1| && k < |u2|
  {
    u1[..k] == u2[..k] && u1[k] < u2[k]
  }

  /** compare_n returns -1 exactly when u1 is smaller at the first index below n where they differ. */
  lemma {:induction false} CompareNLess(u1: seq<int>, u2: seq<int>, n: nat)
    requires n <= |u1| && n <= |u2|
    ensures CompareN(u1, u2, n) == -1 <==> exists k :: 0 <= k < n && FirstLessAt(u1, u2, k)
  {
    if n > 0 {
      if u1[0] < u2[0] {
        assert FirstLessAt(u1, u2, 0);
      } else if u1[0] > u2[0] {
        forall k | 0 <= k < n
          ensures !FirstLessAt(u1, u2, k)
        {
          if k > 0 {
            assert u1[..k][0] != u2[..k][0];
          }
        }
      } else {
        var t1, t2 := u1[1..], u2[1..];
        CompareNLess(t1, t2, n - 1);
        if CompareN(t1, t2, n - 1) == -1 {
          var k :| 0 <= k < n - 1 && FirstLessAt(t1, t2, k);
          assert u1[..k + 1] == [u1[0]] + t1[..k];
          assert u2[..k + 1] == [u2[0]] + t2[..k];
          assert FirstLessAt(u1, u2, k + 1);
        } else {
          forall k | 0 <= k < n && FirstLessAt(u1, u2, k)
            ensures false
          {
            assert k > 0;
            assert t1[..k - 1] == u1[..k][1..];
            assert t2[..k - 1] == u2[..k][1..];
            assert FirstLessAt(t1, t2, k - 1);
          }
        }
      }
    }
  }

  /** Swapping the arguments negates the result. */
  lemma {:induction false} CompareNAntisymmetric(u1: seq<int>, u2: seq<int>, n: nat)
    requires n <= |u1| && n <= |u2|
    ensures CompareN(u1, u2, n) == -CompareN(u2, u1, n)
  {
    if n > 0 && u1[0] == u2[0] {
      CompareNAntisymmetric(u1[1..], u2[1..], n - 1);
    }
  }

  /** Ids at or beyond index n never affect the result. */
  lemma {:induction false} CompareNIgnoresTail(u1: seq<int>, u2: seq<int>, v1: seq<int>, v2: seq<int>, n: nat)
    requires n <= |u1| && n <= |u2| && n <= |v1| && n <= |v2|
    requires u1[..n] == v1[..n] && u2[..n] == v2[..n]
    ensures CompareN(u1, u2, n) == CompareN(v1, v2, n)
  {
    if n > 0 {
      assert u1[0] == u1[..n][0] == v1[..n][0] == v1[0];
      assert u2[0] == u2[..n][0] == v2[..n][0] == v2[0];
      assert u1[1..][..n - 1] == u1[..n][1..] == v1[..n][1..] == v1[1..][..n - 1];
      assert u2[1..][..n - 1] == u2[..n][1..] == v2[..n][1..] == v2[1..][..n - 1];
      CompareNIgnoresTail(u1[1..], u2[1..], v1[1..], v2[1..], n - 1);
    }
  }

  /** compare_tri: compare_n over three ids. */
  function CompareTri(u1: seq<int>, u2: seq<int>): (r: int)
    requires 3 <= |u1| && 3 <= |u2|
    ensures r == -1 || r == 0 || r == 1
    ensures r == 0 <==> u1[..3] == u2[..3]
  {
    CompareN(u1, u2, 3)
  }

  /** compare_quad: compare_n over four ids. */
  function CompareQuad(u1: seq<int>, u2: seq<int>): (r: int)
    requires 4 <= |u1| && 4 <= |u2|
    ensures r == -1 || r == 0 || r == 1
    ensures r == 0 <==> u1[..4] == u2[..4]
  {
    CompareN(u1, u2, 4)
  }

  /** compare_quint: compare_n over five ids. */
  function CompareQuint(u1: seq<int>, u2: seq<int>): (r: int)
    requires 5 <= |u1| && 5 <= |u2|
    ensures r == -1 || r == 0 || r == 1
    ensures r == 0 <==> u1[..5] == u2[..5]
  {
    CompareN(u1, u2, 5)
  }

  /** Every entry of s is a tuple of exactly n ids. */
  predicate Tuples(s: seq<seq<int>>, n: nat)
  {
    forall i :: 0 <= i < |s| ==> |s[i]| == n
  }

  /** s is in non-decreasing compare_n order, as qsort/bl_sort leave it. */
  predicate SortedBy(s: seq<seq<int>>, n: nat)
    requires Tuples(s, n)
  {
    forall i, j :: 0 <= i < j < |s| ==> CompareN(s[i], s[j], n) <= 0
  }

  /** Two sorted lists holding the same tuples start with the same tuple. */
  lemma SortedHeads(a: seq<seq<int>>, b: seq<seq<int>>, n: nat)
    requires Tuples(a, n) && Tuples(b, n)
    requires SortedBy(a, n) && SortedBy(b, n)
    requires multiset(a) == multiset(b) && |a| > 0
    ensures |b| > 0 && a[0] == b[0]
  {
    assert a[0] in multiset(b);
    var j :| 0 <= j < |b| && b[j] == a[0];
    assert b[0] in multiset(a);
    var k :| 0 <= k < |a| && a[k] == b[0];
    assert CompareN(a[0], b[0], n) <= 0 by {
      if k > 0 {
        assert CompareN(a[0], a[k], n) <= 0;
      }
    }
    assert CompareN(b[0], a[0], n) <= 0 by {
      if j > 0 {
        assert CompareN(b[0], b[j], n) <= 0;
      }
    }
    CompareNAntisymmetric(a[0], b[0], n);
    assert a[0] == a[0][..n] == b[0][..n] == b[0];
  }

  /** Dropping the first tuple keeps a list sorted. */
  lemma SortedTail(a: seq<seq<int>>, n: nat)
    requires Tuples(a, n) && SortedBy(a, n) && |a| > 0
    ensures Tuples(a[1..], n) && SortedBy(a[1..], n)
  {
    var t := a[1..];
    forall i, j | 0 <= i < j < |t|
      ensures CompareN(t[i], t[j], n) <= 0
    {
      assert t[i] == a[i + 1] && t[j] == a[j + 1];
    }
  }

  /**
   * Two lists of n-tuples sorted by compare_n that hold the same tuples are
   * equal: the sorted order is unique.
   */
  lemma {:induction false} SortedUnique(a: seq<seq<int>>, b: seq<seq<int>>, n: nat)
    requires Tuples(a, n) && Tuples(b, n)
    requires SortedBy(a, n) && SortedBy(b, n)
    requires multiset(a) == multiset(b)
    ensures a == b
    decreases |a|
  {
    if |a| == 0 {
      assert |multiset(b)| == 0;
    } else {
      SortedHeads(a, b, n);
      SortedTail(a, n);
      SortedTail(b, n);
      assert a == [a[0]] + a[1..];
      assert b == [b[0]] + b[1..];
      assert multiset(a) == multiset{a[0]} + multiset(a[1..]);
      assert multiset(b) == multiset{b[0]} + multiset(b[1..]);
      forall v
        ensures multiset(a[1..])[v] == multiset(b[1..])[v]
      {
        assert multiset(a)[v] == multiset(b)[v];
      }
      assert multiset(a[1..]) == multiset(b[1..]);
      SortedUnique(a[1..], b[1..], n);
    }
  }

  /**
   * The check of the three-star test: sort both lists with compare_n and compare
   * them entry by entry.  For any sorted rearrangements of the two lists this
   * check succeeds exactly when the lists hold the same tuples, each as often.
   */
  lemma SortThenCompare(got: seq<seq<int>>, want: seq<seq<int>>, sortedGot: seq<seq<int>>, sortedWant: seq<seq<int>>, n: nat)
    requires Tuples(sortedGot, n) && Tuples(sortedWant, n)
    requires multiset(sortedGot) == multiset(got) && multiset(sortedWant) == multiset(want)
    requires SortedBy(sortedGot, n) && SortedBy(sortedWant, n)
    ensures (|sortedGot| == |sortedWant| &&
             forall i :: 0 <= i < |sortedGot| ==> CompareN(sortedGot[i], sortedWant[i], n) == 0)
            <==> multiset(got) == multiset(want)
  {
    if multiset(got) == multiset(want) {
      SortedUnique(sortedGot, sortedWant, n);
    }
    if |sortedGot| == |sortedWant| && forall i :: 0 <= i < |sortedGot| ==> CompareN(sortedGot[i], sortedWant[i], n) == 0 {
      assert forall i :: 0 <= i < |sortedGot| ==> sortedGot[i] == sortedGot[i][..n] == sortedWant[i][..n] == sortedWant[i];
      assert sortedGot == sortedWant;
    }
  }
}
