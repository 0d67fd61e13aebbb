/**
 * The solver test: the seven-star field it builds, the hook that records every
 * quad the solver offers, the wanted lists of its three runs (quads of four,
 * three and five stars) and the checks it applies to what was recorded.
 */
module SolverFixtures {
  import opened QuadCompare
  import opened QuadExpansion
  import Starxy

  /** The number of stars in the test field. */
  const FieldStars: nat := 7

  /** field1's coordinates: x and then y of star 0, star 1, ..., star 6. */
  const Field1Coords: seq<real> := [0.0, 0.0, 2.0, 2.0, -1.0, 3.0, 0.5, 1.5, 1.0, 1.0, 1.5, 0.5, 3.0, -1.0]

  /** field1: a position-only star list with star i at coordinates 2i and 2i + 1 of the field. */
  method Field1() returns (xy: Starxy.StarXY)
    ensures xy.Valid() && fresh(xy.Repr())
    ensures xy.Count() == FieldStars && xy.flux == null && xy.background == null
    ensures forall i :: 0 <= i < FieldStars ==>
              xy.GetX(i) == Field1Coords[2 * i] && xy.GetY(i) == Field1Coords[2 * i + 1]
  {
    var n := |Field1Coords| / 2;
    xy := new Starxy.StarXY(n, false, false);
    for i := 0 to n
      invariant xy.Valid() && fresh(xy.Repr()) && xy.N == n && xy.flux == null && xy.background == null
      invariant forall j :: 0 <= j < i ==> xy.x[j] == Field1Coords[2 * j] && xy.y[j] == Field1Coords[2 * j + 1]
    {
      xy.SetX(i, Field1Coords[2 * i]);
      xy.SetY(i, Field1Coords[2 * i + 1]);
    }
  }

  /** Every tuple in s has at least n ids. */
  predicate Wide(s: seq<seq<int>>, n: nat)
  {
    forall i :: 0 <= i < |s| ==> n <= |s[i]|
  }

  /**
   * The in-order check of the four- and five-star runs: the recorded list has
   * as many quads as the wanted one and compare_n finds each equal to the
   * wanted quad at the same position.
   */
  method CheckInOrder(got: seq<seq<int>>, want: seq<seq<int>>, n: nat) returns (ok: bool)
    requires Wide(got, n) && Wide(want, n)
    ensures ok <==> |got| == |want| && forall i :: 0 <= i < |got| ==> got[i][..n] == want[i][..n]
  {
    if |got| != |want| {
      return false;
    }
    var i := 0;
    while i < |got|
      invariant i <= |got|
      invariant forall j :: 0 <= j < i ==> got[j][..n] == want[j][..n]
    {
      if CompareN(got[i], want[i], n) != 0 {
        return false;
      }
      i := i + 1;
    }
    return true;
  }

  /**
   * The check of the three-star run: both lists sorted with compare_n (by the
   * list library and by qsort, given here as their results) and then compared
   * in order.  It passes exactly when the lists hold the same tuples.
   */
  method CheckSorted(got: seq<seq<int>>, want: seq<seq<int>>, sortedGot: seq<seq<int>>, sortedWant: seq<seq<int>>, n: nat)
      returns (ok: bool)
    requires Tuples(sortedGot, n) && Tuples(sortedWant, n)
    requires multiset(sortedGot) == multiset(got) && multiset(sortedWant) == multiset(want)
    requires SortedBy(sortedGot, n) && SortedBy(sortedWant, n)
    ensures ok <==> multiset(got) == multiset(want)
  {
    ok := CheckInOrder(sortedGot, sortedWant, n);
    SortThenCompare(got, want, sortedGot, sortedWant, n);
  }

  /** What the hook keeps of each offered star list: its first width ids. */
  function Recorded(offered: seq<seq<int>>, width: nat): (r: seq<seq<int>>)
    requires Wide(offered, width)
    ensures |r| == |offered| && Tuples(r, width)
    ensures forall i :: 0 <= i < |r| ==> r[i] == offered[i][..width]
  {
    seq(|offered|, i requires 0 <= i < |offered| => offered[i][..width])
  }

  /** The solver's calls of the hook, one per offered star list, in order. */
  method RecordAll(list: QuadList, offered: seq<seq<int>>)
    requires Wide(offered, list.width)
    modifies list
    ensures list.quads == old(list.quads) + Recorded(offered, list.width)
  {
    for i := 0 to |offered|
      invariant list.quads == old(list.quads) + Recorded(offered[..i], list.width)
    {
      assert Recorded(offered[..i + 1], list.width) == Recorded(offered[..i], list.width) + [offered[i][..list.width]];
      list.TryPermutations(offered[i]);
    }
    assert offered[..|offered|] == offered;
  }


  /**
   * A run checked in order (test1 and test3): the hook records what the
   * solver offers into a list of width-id records, which must then match the
   * wanted list position by position.
   */
  method RunInOrder(offered: seq<seq<int>>, want: seq<seq<int>>, width: nat) returns (ok: bool)
    requires Wide(offered, width) && Wide(want, width)
    ensures ok <==> |offered| == |want| && forall i :: 0 <= i < |offered| ==> offered[i][..width] == want[i][..width]
  {
    var list := new QuadList(width);
    RecordAll(list, offered);
    ok := CheckInOrder(list.quads, want, width);
    assert forall i :: 0 <= i < |offered| ==> list.quads[i][..width] == offered[i][..width];
  }

  /**
   * A run checked after sorting (test2): it passes exactly when the solver
   * offered the wanted tuples, each as often, in any order.
   */
  method RunSorted(offered: seq<seq<int>>, want: seq<seq<int>>, sortedGot: seq<seq<int>>, sortedWant: seq<seq<int>>, width: nat)
      returns (ok: bool)
    requires Wide(offered, width)
    requires Tuples(sortedGot, width) && Tuples(sortedWant, width) && SortedBy(sortedGot, width) && SortedBy(sortedWant, width)
    requires multiset(sortedGot) == multiset(Recorded(offered, width)) && multiset(sortedWant) == multiset(want)
    ensures ok <==> multiset(Recorded(offered, width)) == multiset(want)
  {
    var list := new QuadList(width);
    RecordAll(list, offered);
    ok := CheckSorted(list.quads, want, sortedGot, sortedWant, width);
  }

  /** t names |t| different stars of a field of n stars. */
  predicate StarIds(t: seq<int>, n: nat)
  {
    (forall i :: 0 <= i < |t| ==> 0 <= t[i] < n) &&
    (forall i, j :: 0 <= i < j < |t| ==> t[i] != t[j])
  }

  /** An id at two positions occurs at least twice. */
  lemma RepeatedId(t: seq<int>, i: nat, j: nat)
    requires i < j < |t| && t[i] == t[j]
    ensures multiset(t)[t[i]] >= 2
  {
    assert t == t[..j] + [t[j]] + t[j + 1..];
    assert t[i] == t[..j][i];
    assert t[i] in multiset(t[..j]);
  }

  /** In a tuple of different ids, each id occurs at most once. */
  lemma {:induction false} DistinctOnce(b: seq<int>, v: int)
    requires forall i, j :: 0 <= i < j < |b| ==> b[i] != b[j]
    ensures multiset(b)[v] <= 1
  {
    if |b| > 0 {
      var rest := b[1..];
      assert b == [b[0]] + rest;
      DistinctOnce(rest, v);
      if b[0] == v {
        assert v !in rest by {
          forall k | 0 <= k < |rest|
            ensures rest[k] != v
          {
            assert rest[k] == b[k + 1];
          }
        }
      }
    }
  }

  /** Rearranging the ids of a tuple keeps them different and within the field. */
  lemma StarIdsRearranged(t: seq<int>, b: seq<int>, n: nat)
    requires multiset(t) == multiset(b) && StarIds(b, n)
    ensures StarIds(t, n)
  {
    forall i | 0 <= i < |t|
      ensures 0 <= t[i] < n
    {
      assert t[i] in multiset(b);
      var k :| 0 <= k < |b| && b[k] == t[i];
    }
    forall i, j | 0 <= i < j < |t|
      ensures t[i] != t[j]
    {
      if t[i] == t[j] {
        RepeatedId(t, i, j);
        DistinctOnce(b, t[i]);
      }
    }
  }

  /**
   * When the candidates name dimquad different stars of the field, so does
   * every quad of their expansion.
   */
  lemma EmissionStarIds(bases: seq<seq<int>>, dimquad: nat, n: nat)
    requires dimquad >= 2
    requires forall k :: 0 <= k < |bases| ==> |bases[k]| == dimquad && StarIds(bases[k], n)
    ensures Candidates(bases, dimquad)
    ensures forall t :: t in Emission(bases, dimquad) ==> |t| == dimquad && StarIds(t, n)
  {
    EmissionSound(bases, dimquad);
    forall t | t in Emission(bases, dimquad)
      ensures StarIds(t, n)
    {
      var b :| b in bases && multiset(t) == multiset(b);
      StarIdsRearranged(t, b, n);
    }
  }
  // The wanted list of test1 (quads of 4 stars), block by block: each block is one candidate's expansion.
  const Test1Block00: seq<seq<int>> := [[0, 1, 4, 3], [0, 1, 3, 4], [1, 0, 4, 3], [1, 0, 3, 4], [0, 1, 4, 3], [0, 1, 3, 4], [1, 0, 4, 3], [1, 0, 3, 4]]
  const Test1Block01: seq<seq<int>> := [[0, 2, 4, 3], [0, 2, 3, 4], [2, 0, 4, 3], [2, 0, 3, 4], [0, 2, 4, 3], [0, 2, 3, 4], [2, 0, 4, 3], [2, 0, 3, 4]]
  const Test1Block02: seq<seq<int>> := [[1, 2, 4, 3], [1, 2, 3, 4], [2, 1, 4, 3], [2, 1, 3, 4], [1, 2, 4, 3], [1, 2, 3, 4], [2, 1, 4, 3], [2, 1, 3, 4]]
  const Test1Block03: seq<seq<int>> := [[2, 5, 0, 1], [2, 5, 1, 0], [5, 2, 0, 1], [5, 2, 1, 0], [2, 5, 0, 1], [2, 5, 1, 0], [5, 2, 0, 1], [5, 2, 1, 0]]
  const Test1Block04: seq<seq<int>> := [[2, 5, 0, 3], [2, 5, 3, 0], [5, 2, 0, 3], [5, 2, 3, 0], [2, 5, 0, 3], [2, 5, 3, 0], [5, 2, 0, 3], [5, 2, 3, 0]]
  const Test1Block05: seq<seq<int>> := [[2, 5, 0, 4], [2, 5, 4, 0], [5, 2, 0, 4], [5, 2, 4, 0], [2, 5, 0, 4], [2, 5, 4, 0], [5, 2, 0, 4], [5, 2, 4, 0]]
  const Test1Block06: seq<seq<int>> := [[2, 5, 1, 3], [2, 5, 3, 1], [5, 2, 1, 3], [5, 2, 3, 1], [2, 5, 1, 3], [2, 5, 3, 1], [5, 2, 1, 3], [5, 2, 3, 1]]
  const Test1Block07: seq<seq<int>> := [[2, 5, 1, 4], [2, 5, 4, 1], [5, 2, 1, 4], [5, 2, 4, 1], [2, 5, 1, 4], [2, 5, 4, 1], [5, 2, 1, 4], [5, 2, 4, 1]]
  const Test1Block08: seq<seq<int>> := [[2, 5, 3, 4], [2, 5, 4, 3], [5, 2, 3, 4], [5, 2, 4, 3], [2, 5, 3, 4], [2, 5, 4, 3], [5, 2, 3, 4], [5, 2, 4, 3]]
  const Test1Block09: seq<seq<int>> := [[0, 1, 5, 3], [0, 1, 3, 5], [1, 0, 5, 3], [1, 0, 3, 5], [0, 1, 5, 3], [0, 1, 3, 5], [1, 0, 5, 3], [1, 0, 3, 5]]
  const Test1Block10: seq<seq<int>> := [[0, 1, 5, 4], [0, 1, 4, 5], [1, 0, 5, 4], [1, 0, 4, 5], [0, 1, 5, 4], [0, 1, 4, 5], [1, 0, 5, 4], [1, 0, 4, 5]]
  const Test1Block11: seq<seq<int>> := [[0, 6, 4, 5], [0, 6, 5, 4], [6, 0, 4, 5], [6, 0, 5, 4], [0, 6, 4, 5], [0, 6, 5, 4], [6, 0, 4, 5], [6, 0, 5, 4]]
  const Test1Block12: seq<seq<int>> := [[1, 6, 4, 5], [1, 6, 5, 4], [6, 1, 4, 5], [6, 1, 5, 4], [1, 6, 4, 5], [1, 6, 5, 4], [6, 1, 4, 5], [6, 1, 5, 4]]
  const Test1Block13: seq<seq<int>> := [[2, 6, 0, 1], [2, 6, 1, 0], [6, 2, 0, 1], [6, 2, 1, 0], [2, 6, 0, 1], [2, 6, 1, 0], [6, 2, 0, 1], [6, 2, 1, 0]]
  const Test1Block14: seq<seq<int>> := [[2, 6, 0, 3], [2, 6, 3, 0], [6, 2, 0, 3], [6, 2, 3, 0], [2, 6, 0, 3], [2, 6, 3, 0], [6, 2, 0, 3], [6, 2, 3, 0]]
  const Test1Block15: seq<seq<int>> := [[2, 6, 0, 4], [2, 6, 4, 0], [6, 2, 0, 4], [6, 2, 4, 0], [2, 6, 0, 4], [2, 6, 4, 0], [6, 2, 0, 4], [6, 2, 4, 0]]
  const Test1Block16: seq<seq<int>> := [[2, 6, 0, 5], [2, 6, 5, 0], [6, 2, 0, 5], [6, 2, 5, 0], [2, 6, 0, 5], [2, 6, 5, 0], [6, 2, 0, 5], [6, 2, 5, 0]]
  const Test1Block17: seq<seq<int>> := [[2, 6, 1, 3], [2, 6, 3, 1], [6, 2, 1, 3], [6, 2, 3, 1], [2, 6, 1, 3], [2, 6, 3, 1], [6, 2, 1, 3], [6, 2, 3, 1]]
  const Test1Block18: seq<seq<int>> := [[2, 6, 1, 4], [2, 6, 4, 1], [6, 2, 1, 4], [6, 2, 4, 1], [2, 6, 1, 4], [2, 6, 4, 1], [6, 2, 1, 4], [6, 2, 4, 1]]
  const Test1Block19: seq<seq<int>> := [[2, 6, 1, 5], [2, 6, 5, 1], [6, 2, 1, 5], [6, 2, 5, 1], [2, 6, 1, 5], [2, 6, 5, 1], [6, 2, 1, 5], [6, 2, 5, 1]]
  const Test1Block20: seq<seq<int>> := [[2, 6, 3, 4], [2, 6, 4, 3], [6, 2, 3, 4], [6, 2, 4, 3], [2, 6, 3, 4], [2, 6, 4, 3], [6, 2, 3, 4], [6, 2, 4, 3]]
  const Test1Block21: seq<seq<int>> := [[2, 6, 3, 5], [2, 6, 5, 3], [6, 2, 3, 5], [6, 2, 5, 3], [2, 6, 3, 5], [2, 6, 5, 3], [6, 2, 3, 5], [6, 2, 5, 3]]
  const Test1Block22: seq<seq<int>> := [[2, 6, 4, 5], [2, 6, 5, 4], [6, 2, 4, 5], [6, 2, 5, 4], [2, 6, 4, 5], [2, 6, 5, 4], [6, 2, 4, 5], [6, 2, 5, 4]]
  const Test1Block23: seq<seq<int>> := [[3, 6, 0, 1], [3, 6, 1, 0], [6, 3, 0, 1], [6, 3, 1, 0], [3, 6, 0, 1], [3, 6, 1, 0], [6, 3, 0, 1], [6, 3, 1, 0]]
  const Test1Block24: seq<seq<int>> := [[3, 6, 0, 4], [3, 6, 4, 0], [6, 3, 0, 4], [6, 3, 4, 0], [3, 6, 0, 4], [3, 6, 4, 0], [6, 3, 0, 4], [6, 3, 4, 0]]
  const Test1Block25: seq<seq<int>> := [[3, 6, 0, 5], [3, 6, 5, 0], [6, 3, 0, 5], [6, 3, 5, 0], [3, 6, 0, 5], [3, 6, 5, 0], [6, 3, 0, 5], [6, 3, 5, 0]]
  const Test1Block26: seq<seq<int>> := [[3, 6, 1, 4], [3, 6, 4, 1], [6, 3, 1, 4], [6, 3, 4, 1], [3, 6, 1, 4], [3, 6, 4, 1], [6, 3, 1, 4], [6, 3, 4, 1]]
  const Test1Block27: seq<seq<int>> := [[3, 6, 1, 5], [3, 6, 5, 1], [6, 3, 1, 5], [6, 3, 5, 1], [3, 6, 1, 5], [3, 6, 5, 1], [6, 3, 1, 5], [6, 3, 5, 1]]
  const Test1Block28: seq<seq<int>> := [[3, 6, 4, 5], [3, 6, 5, 4], [6, 3, 4, 5], [6, 3, 5, 4], [3, 6, 4, 5], [3, 6, 5, 4], [6, 3, 4, 5], [6, 3, 5, 4]]
  const Test1Blocks: seq<seq<seq<int>>> := [Test1Block00, Test1Block01, Test1Block02, Test1Block03, Test1Block04, Test1Block05, Test1Block06, Test1Block07, Test1Block08, Test1Block09, Test1Block10, Test1Block11, Test1Block12, Test1Block13, Test1Block14, Test1Block15, Test1Block16, Test1Block17, Test1Block18, Test1Block19, Test1Block20, Test1Block21, Test1Block22, Test1Block23, Test1Block24, Test1Block25, Test1Block26, Test1Block27, Test1Block28]
  const Test1Wanted: seq<seq<int>> := Concat(Test1Blocks)
  /** The candidates of test1: the first quad of each block. */
  const Test1Bases: seq<seq<int>> := [[0, 1, 4, 3], [0, 2, 4, 3], [1, 2, 4, 3], [2, 5, 0, 1], [2, 5, 0, 3], [2, 5, 0, 4], [2, 5, 1, 3], [2, 5, 1, 4], [2, 5, 3, 4], [0, 1, 5, 3], [0, 1, 5, 4], [0, 6, 4, 5], [1, 6, 4, 5], [2, 6, 0, 1], [2, 6, 0, 3], [2, 6, 0, 4], [2, 6, 0, 5], [2, 6, 1, 3], [2, 6, 1, 4], [2, 6, 1, 5], [2, 6, 3, 4], [2, 6, 3, 5], [2, 6, 4, 5], [3, 6, 0, 1], [3, 6, 0, 4], [3, 6, 0, 5], [3, 6, 1, 4], [3, 6, 1, 5], [3, 6, 4, 5]]

  /** Each block of test1's wanted list is the listed block of its candidate. */
  lemma Test1BlocksListed()
    ensures |Test1Bases| == |Test1Blocks| == 29
    ensures forall k :: 0 <= k < 29 ==> |Test1Bases[k]| == 4 && ListedBlock(Test1Bases[k]) == Test1Blocks[k]
  {
  }

  /** The wanted list of test1 is the expansion of its 29 candidates, 232 quads in all. */
  lemma Test1Expansion()
    ensures Candidates(Test1Bases, 4) && Emission(Test1Bases, 4) == Test1Wanted
  {
    Test1BlocksListed();
    EmissionOfListed(Test1Bases, 4, Test1Blocks);
  }

  /** Each candidate of test1 names 4 different stars of field1. */
  lemma Test1BasesStarIds()
    ensures forall k :: 0 <= k < |Test1Bases| ==> |Test1Bases[k]| == 4 && StarIds(Test1Bases[k], FieldStars)
  {
  }

  /** Every quad test1's candidates expand to has 4 ids, naming 4 different stars of field1. */
  lemma Test1StarIds()
    ensures Candidates(Test1Bases, 4)
    ensures forall t :: t in Emission(Test1Bases, 4) ==> |t| == 4 && StarIds(t, FieldStars)
  {
    Test1BasesStarIds();
    EmissionStarIds(Test1Bases, 4, FieldStars);
  }

  // The wanted list of test2 (quads of 3 stars), block by block: each block is one candidate's expansion.
  const Test2Block00: seq<seq<int>> := [[0, 1, 3], [1, 0, 3], [0, 1, 3], [1, 0, 3]]
  const Test2Block01: seq<seq<int>> := [[0, 2, 3], [2, 0, 3], [0, 2, 3], [2, 0, 3]]
  const Test2Block02: seq<seq<int>> := [[1, 2, 3], [2, 1, 3], [1, 2, 3], [2, 1, 3]]
  const Test2Block03: seq<seq<int>> := [[2, 4, 3], [4, 2, 3], [2, 4, 3], [4, 2, 3]]
  const Test2Block04: seq<seq<int>> := [[0, 1, 4], [1, 0, 4], [0, 1, 4], [1, 0, 4]]
  const Test2Block05: seq<seq<int>> := [[0, 2, 4], [2, 0, 4], [0, 2, 4], [2, 0, 4]]
  const Test2Block06: seq<seq<int>> := [[0, 3, 4], [3, 0, 4], [0, 3, 4], [3, 0, 4]]
  const Test2Block07: seq<seq<int>> := [[1, 2, 4], [2, 1, 4], [1, 2, 4], [2, 1, 4]]
  const Test2Block08: seq<seq<int>> := [[1, 3, 4], [3, 1, 4], [1, 3, 4], [3, 1, 4]]
  const Test2Block09: seq<seq<int>> := [[0, 5, 4], [5, 0, 4], [0, 5, 4], [5, 0, 4]]
  const Test2Block10: seq<seq<int>> := [[1, 5, 4], [5, 1, 4], [1, 5, 4], [5, 1, 4]]
  const Test2Block11: seq<seq<int>> := [[2, 5, 0], [5, 2, 0], [2, 5, 0], [5, 2, 0]]
  const Test2Block12: seq<seq<int>> := [[2, 5, 1], [5, 2, 1], [2, 5, 1], [5, 2, 1]]
  const Test2Block13: seq<seq<int>> := [[2, 5, 3], [5, 2, 3], [2, 5, 3], [5, 2, 3]]
  const Test2Block14: seq<seq<int>> := [[2, 5, 4], [5, 2, 4], [2, 5, 4], [5, 2, 4]]
  const Test2Block15: seq<seq<int>> := [[3, 5, 4], [5, 3, 4], [3, 5, 4], [5, 3, 4]]
  const Test2Block16: seq<seq<int>> := [[0, 1, 5], [1, 0, 5], [0, 1, 5], [1, 0, 5]]
  const Test2Block17: seq<seq<int>> := [[0, 6, 4], [6, 0, 4], [0, 6, 4], [6, 0, 4]]
  const Test2Block18: seq<seq<int>> := [[0, 6, 5], [6, 0, 5], [0, 6, 5], [6, 0, 5]]
  const Test2Block19: seq<seq<int>> := [[1, 6, 4], [6, 1, 4], [1, 6, 4], [6, 1, 4]]
  const Test2Block20: seq<seq<int>> := [[1, 6, 5], [6, 1, 5], [1, 6, 5], [6, 1, 5]]
  const Test2Block21: seq<seq<int>> := [[2, 6, 0], [6, 2, 0], [2, 6, 0], [6, 2, 0]]
  const Test2Block22: seq<seq<int>> := [[2, 6, 1], [6, 2, 1], [2, 6, 1], [6, 2, 1]]
  const Test2Block23: seq<seq<int>> := [[2, 6, 3], [6, 2, 3], [2, 6, 3], [6, 2, 3]]
  const Test2Block24: seq<seq<int>> := [[2, 6, 4], [6, 2, 4], [2, 6, 4], [6, 2, 4]]
  const Test2Block25: seq<seq<int>> := [[2, 6, 5], [6, 2, 5], [2, 6, 5], [6, 2, 5]]
  const Test2Block26: seq<seq<int>> := [[3, 6, 0], [6, 3, 0], [3, 6, 0], [6, 3, 0]]
  const Test2Block27: seq<seq<int>> := [[3, 6, 1], [6, 3, 1], [3, 6, 1], [6, 3, 1]]
  const Test2Block28: seq<seq<int>> := [[3, 6, 4], [6, 3, 4], [3, 6, 4], [6, 3, 4]]
  const Test2Block29: seq<seq<int>> := [[3, 6, 5], [6, 3, 5], [3, 6, 5], [6, 3, 5]]
  const Test2Block30: seq<seq<int>> := [[4, 6, 5], [6, 4, 5], [4, 6, 5], [6, 4, 5]]
  const Test2Blocks: seq<seq<seq<int>>> := [Test2Block00, Test2Block01, Test2Block02, Test2Block03, Test2Block04, Test2Block05, Test2Block06, Test2Block07, Test2Block08, Test2Block09, Test2Block10, Test2Block11, Test2Block12, Test2Block13, Test2Block14, Test2Block15, Test2Block16, Test2Block17, Test2Block18, Test2Block19, Test2Block20, Test2Block21, Test2Block22, Test2Block23, Test2Block24, Test2Block25, Test2Block26, Test2Block27, Test2Block28, Test2Block29, Test2Block30]
  const Test2Wanted: seq<seq<int>> := Concat(Test2Blocks)
  /** The candidates of test2: the first quad of each block. */
  const Test2Bases: seq<seq<int>> := [[0, 1, 3], [0, 2, 3], [1, 2, 3], [2, 4, 3], [0, 1, 4], [0, 2, 4], [0, 3, 4], [1, 2, 4], [1, 3, 4], [0, 5, 4], [1, 5, 4], [2, 5, 0], [2, 5, 1], [2, 5, 3], [2, 5, 4], [3, 5, 4], [0, 1, 5], [0, 6, 4], [0, 6, 5], [1, 6, 4], [1, 6, 5], [2, 6, 0], [2, 6, 1], [2, 6, 3], [2, 6, 4], [2, 6, 5], [3, 6, 0], [3, 6, 1], [3, 6, 4], [3, 6, 5], [4, 6, 5]]

  /** Each block of test2's wanted list is the listed block of its candidate. */
  lemma Test2BlocksListed()
    ensures |Test2Bases| == |Test2Blocks| == 31
    ensures forall k :: 0 <= k < 31 ==> |Test2Bases[k]| == 3 && ListedBlock(Test2Bases[k]) == Test2Blocks[k]
  {
  }

  /** The wanted list of test2 is the expansion of its 31 candidates, 124 quads in all. */
  lemma Test2Expansion()
    ensures Candidates(Test2Bases, 3) && Emission(Test2Bases, 3) == Test2Wanted
  {
    Test2BlocksListed();
    EmissionOfListed(Test2Bases, 3, Test2Blocks);
  }

  /** Each candidate of test2 names 3 different stars of field1. */
  lemma Test2BasesStarIds()
    ensures forall k :: 0 <= k < |Test2Bases| ==> |Test2Bases[k]| == 3 && StarIds(Test2Bases[k], FieldStars)
  {
  }

  /** Every quad test2's candidates expand to has 3 ids, naming 3 different stars of field1. */
  lemma Test2StarIds()
    ensures Candidates(Test2Bases, 3)
    ensures forall t :: t in Emission(Test2Bases, 3) ==> |t| == 3 && StarIds(t, FieldStars)
  {
    Test2BasesStarIds();
    EmissionStarIds(Test2Bases, 3, FieldStars);
  }

  // The wanted list of test3 (quads of 5 stars), block by block: each block is one candidate's expansion.
  const Test3Block00: seq<seq<int>> := [[2, 5, 0, 1, 3], [2, 5, 0, 3, 1], [2, 5, 1, 0, 3], [2, 5, 1, 3, 0], [2, 5, 3, 0, 1], [2, 5, 3, 1, 0], [5, 2, 0, 1, 3], [5, 2, 0, 3, 1], [5, 2, 1, 0, 3], [5, 2, 1, 3, 0], [5, 2, 3, 0, 1], [5, 2, 3, 1, 0], [2, 5, 0, 1, 3], [2, 5, 0, 3, 1], [2, 5, 1, 0, 3], [2, 5, 1, 3, 0], [2, 5, 3, 0, 1], [2, 5, 3, 1, 0], [5, 2, 0, 1, 3], [5, 2, 0, 3, 1], [5, 2, 1, 0, 3], [5, 2, 1, 3, 0], [5, 2, 3, 0, 1], [5, 2, 3, 1, 0]]
  const Test3Block01: seq<seq<int>> := [[2, 5, 0, 1, 4], [2, 5, 0, 4, 1], [2, 5, 1, 0, 4], [2, 5, 1, 4, 0], [2, 5, 4, 0, 1], [2, 5, 4, 1, 0], [5, 2, 0, 1, 4], [5, 2, 0, 4, 1], [5, 2, 1, 0, 4], [5, 2, 1, 4, 0], [5, 2, 4, 0, 1], [5, 2, 4, 1, 0], [2, 5, 0, 1, 4], [2, 5, 0, 4, 1], [2, 5, 1, 0, 4], [2, 5, 1, 4, 0], [2, 5, 4, 0, 1], [2, 5, 4, 1, 0], [5, 2, 0, 1, 4], [5, 2, 0, 4, 1], [5, 2, 1, 0, 4], [5, 2, 1, 4, 0], [5, 2, 4, 0, 1], [5, 2, 4, 1, 0]]
  const Test3Block02: seq<seq<int>> := [[2, 5, 0, 3, 4], [2, 5, 0, 4, 3], [2, 5, 3, 0, 4], [2, 5, 3, 4, 0], [2, 5, 4, 0, 3], [2, 5, 4, 3, 0], [5, 2, 0, 3, 4], [5, 2, 0, 4, 3], [5, 2, 3, 0, 4], [5, 2, 3, 4, 0], [5, 2, 4, 0, 3], [5, 2, 4, 3, 0], [2, 5, 0, 3, 4], [2, 5, 0, 4, 3], [2, 5, 3, 0, 4], [2, 5, 3, 4, 0], [2, 5, 4, 0, 3], [2, 5, 4, 3, 0], [5, 2, 0, 3, 4], [5, 2, 0, 4, 3], [5, 2, 3, 0, 4], [5, 2, 3, 4, 0], [5, 2, 4, 0, 3], [5, 2, 4, 3, 0]]
  const Test3Block03: seq<seq<int>> := [[2, 5, 1, 3, 4], [2, 5, 1, 4, 3], [2, 5, 3, 1, 4], [2, 5, 3, 4, 1], [2, 5, 4, 1, 3], [2, 5, 4, 3, 1], [5, 2, 1, 3, 4], [5, 2, 1, 4, 3], [5, 2, 3, 1, 4], [5, 2, 3, 4, 1], [5, 2, 4, 1, 3], [5, 2, 4, 3, 1], [2, 5, 1, 3, 4], [2, 5, 1, 4, 3], [2, 5, 3, 1, 4], [2, 5, 3, 4, 1], [2, 5, 4, 1, 3], [2, 5, 4, 3, 1], [5, 2, 1, 3, 4], [5, 2, 1, 4, 3], [5, 2, 3, 1, 4], [5, 2, 3, 4, 1], [5, 2, 4, 1, 3], [5, 2, 4, 3, 1]]
  const Test3Block04: seq<seq<int>> := [[0, 1, 5, 3, 4], [0, 1, 5, 4, 3], [0, 1, 3, 5, 4], [0, 1, 3, 4, 5], [0, 1, 4, 5, 3], [0, 1, 4, 3, 5], [1, 0, 5, 3, 4], [1, 0, 5, 4, 3], [1, 0, 3, 5, 4], [1, 0, 3, 4, 5], [1, 0, 4, 5, 3], [1, 0, 4, 3, 5], [0, 1, 5, 3, 4], [0, 1, 5, 4, 3], [0, 1, 3, 5, 4], [0, 1, 3, 4, 5], [0, 1, 4, 5, 3], [0, 1, 4, 3, 5], [1, 0, 5, 3, 4], [1, 0, 5, 4, 3], [1, 0, 3, 5, 4], [1, 0, 3, 4, 5], [1, 0, 4, 5, 3], [1, 0, 4, 3, 5]]
  const Test3Block05: seq<seq<int>> := [[2, 6, 0, 1, 3], [2, 6, 0, 3, 1], [2, 6, 1, 0, 3], [2, 6, 1, 3, 0], [2, 6, 3, 0, 1], [2, 6, 3, 1, 0], [6, 2, 0, 1, 3], [6, 2, 0, 3, 1], [6, 2, 1, 0, 3], [6, 2, 1, 3, 0], [6, 2, 3, 0, 1], [6, 2, 3, 1, 0], [2, 6, 0, 1, 3], [2, 6, 0, 3, 1], [2, 6, 1, 0, 3], [2, 6, 1, 3, 0], [2, 6, 3, 0, 1], [2, 6, 3, 1, 0], [6, 2, 0, 1, 3], [6, 2, 0, 3, 1], [6, 2, 1, 0, 3], [6, 2, 1, 3, 0], [6, 2, 3, 0, 1], [6, 2, 3, 1, 0]]
  const Test3Block06: seq<seq<int>> := [[2, 6, 0, 1, 4], [2, 6, 0, 4, 1], [2, 6, 1, 0, 4], [2, 6, 1, 4, 0], [2, 6, 4, 0, 1], [2, 6, 4, 1, 0], [6, 2, 0, 1, 4], [6, 2, 0, 4, 1], [6, 2, 1, 0, 4], [6, 2, 1, 4, 0], [6, 2, 4, 0, 1], [6, 2, 4, 1, 0], [2, 6, 0, 1, 4], [2, 6, 0, 4, 1], [2, 6, 1, 0, 4], [2, 6, 1, 4, 0], [2, 6, 4, 0, 1], [2, 6, 4, 1, 0], [6, 2, 0, 1, 4], [6, 2, 0, 4, 1], [6, 2, 1, 0, 4], [6, 2, 1, 4, 0], [6, 2, 4, 0, 1], [6, 2, 4, 1, 0]]
  const Test3Block07: seq<seq<int>> := [[2, 6, 0, 1, 5], [2, 6, 0, 5, 1], [2, 6, 1, 0, 5], [2, 6, 1, 5, 0], [2, 6, 5, 0, 1], [2, 6, 5, 1, 0], [6, 2, 0, 1, 5], [6, 2, 0, 5, 1], [6, 2, 1, 0, 5], [6, 2, 1, 5, 0], [6, 2, 5, 0, 1], [6, 2, 5, 1, 0], [2, 6, 0, 1, 5], [2, 6, 0, 5, 1], [2, 6, 1, 0, 5], [2, 6, 1, 5, 0], [2, 6, 5, 0, 1], [2, 6, 5, 1, 0], [6, 2, 0, 1, 5], [6, 2, 0, 5, 1], [6, 2, 1, 0, 5], [6, 2, 1, 5, 0], [6, 2, 5, 0, 1], [6, 2, 5, 1, 0]]
  const Test3Block08: seq<seq<int>> := [[2, 6, 0, 3, 4], [2, 6, 0, 4, 3], [2, 6, 3, 0, 4], [2, 6, 3, 4, 0], [2, 6, 4, 0, 3], [2, 6, 4, 3, 0], [6, 2, 0, 3, 4], [6, 2, 0, 4, 3], [6, 2, 3, 0, 4], [6, 2, 3, 4, 0], [6, 2, 4, 0, 3], [6, 2, 4, 3, 0], [2, 6, 0, 3, 4], [2, 6, 0, 4, 3], [2, 6, 3, 0, 4], [2, 6, 3, 4, 0], [2, 6, 4, 0, 3], [2, 6, 4, 3, 0], [6, 2, 0, 3, 4], [6, 2, 0, 4, 3], [6, 2, 3, 0, 4], [6, 2, 3, 4, 0], [6, 2, 4, 0, 3], [6, 2, 4, 3, 0]]
  const Test3Block09: seq<seq<int>> := [[2, 6, 0, 3, 5], [2, 6, 0, 5, 3], [2, 6, 3, 0, 5], [2, 6, 3, 5, 0], [2, 6, 5, 0, 3], [2, 6, 5, 3, 0], [6, 2, 0, 3, 5], [6, 2, 0, 5, 3], [6, 2, 3, 0, 5], [6, 2, 3, 5, 0], [6, 2, 5, 0, 3], [6, 2, 5, 3, 0], [2, 6, 0, 3, 5], [2, 6, 0, 5, 3], [2, 6, 3, 0, 5], [2, 6, 3, 5, 0], [2, 6, 5, 0, 3], [2, 6, 5, 3, 0], [6, 2, 0, 3, 5], [6, 2, 0, 5, 3], [6, 2, 3, 0, 5], [6, 2, 3, 5, 0], [6, 2, 5, 0, 3], [6, 2, 5, 3, 0]]
  const Test3Block10: seq<seq<int>> := [[2, 6, 0, 4, 5], [2, 6, 0, 5, 4], [2, 6, 4, 0, 5], [2, 6, 4, 5, 0], [2, 6, 5, 0, 4], [2, 6, 5, 4, 0], [6, 2, 0, 4, 5], [6, 2, 0, 5, 4], [6, 2, 4, 0, 5], [6, 2, 4, 5, 0], [6, 2, 5, 0, 4], [6, 2, 5, 4, 0], [2, 6, 0, 4, 5], [2, 6, 0, 5, 4], [2, 6, 4, 0, 5], [2, 6, 4, 5, 0], [2, 6, 5, 0, 4], [2, 6, 5, 4, 0], [6, 2, 0, 4, 5], [6, 2, 0, 5, 4], [6, 2, 4, 0, 5], [6, 2, 4, 5, 0], [6, 2, 5, 0, 4], [6, 2, 5, 4, 0]]
  const Test3Block11: seq<seq<int>> := [[2, 6, 1, 3, 4], [2, 6, 1, 4, 3], [2, 6, 3, 1, 4], [2, 6, 3, 4, 1], [2, 6, 4, 1, 3], [2, 6, 4, 3, 1], [6, 2, 1, 3, 4], [6, 2, 1, 4, 3], [6, 2, 3, 1, 4], [6, 2, 3, 4, 1], [6, 2, 4, 1, 3], [6, 2, 4, 3, 1], [2, 6, 1, 3, 4], [2, 6, 1, 4, 3], [2, 6, 3, 1, 4], [2, 6, 3, 4, 1], [2, 6, 4, 1, 3], [2, 6, 4, 3, 1], [6, 2, 1, 3, 4], [6, 2, 1, 4, 3], [6, 2, 3, 1, 4], [6, 2, 3, 4, 1], [6, 2, 4, 1, 3], [6, 2, 4, 3, 1]]
  const Test3Block12: seq<seq<int>> := [[2, 6, 1, 3, 5], [2, 6, 1, 5, 3], [2, 6, 3, 1, 5], [2, 6, 3, 5, 1], [2, 6, 5, 1, 3], [2, 6, 5, 3, 1], [6, 2, 1, 3, 5], [6, 2, 1, 5, 3], [6, 2, 3, 1, 5], [6, 2, 3, 5, 1], [6, 2, 5, 1, 3], [6, 2, 5, 3, 1], [2, 6, 1, 3, 5], [2, 6, 1, 5, 3], [2, 6, 3, 1, 5], [2, 6, 3, 5, 1], [2, 6, 5, 1, 3], [2, 6, 5, 3, 1], [6, 2, 1, 3, 5], [6, 2, 1, 5, 3], [6, 2, 3, 1, 5], [6, 2, 3, 5, 1], [6, 2, 5, 1, 3], [6, 2, 5, 3, 1]]
  const Test3Block13: seq<seq<int>> := [[2, 6, 1, 4, 5], [2, 6, 1, 5, 4], [2, 6, 4, 1, 5], [2, 6, 4, 5, 1], [2, 6, 5, 1, 4], [2, 6, 5, 4, 1], [6, 2, 1, 4, 5], [6, 2, 1, 5, 4], [6, 2, 4, 1, 5], [6, 2, 4, 5, 1], [6, 2, 5, 1, 4], [6, 2, 5, 4, 1], [2, 6, 1, 4, 5], [2, 6, 1, 5, 4], [2, 6, 4, 1, 5], [2, 6, 4, 5, 1], [2, 6, 5, 1, 4], [2, 6, 5, 4, 1], [6, 2, 1, 4, 5], [6, 2, 1, 5, 4], [6, 2, 4, 1, 5], [6, 2, 4, 5, 1], [6, 2, 5, 1, 4], [6, 2, 5, 4, 1]]
  const Test3Block14: seq<seq<int>> := [[2, 6, 3, 4, 5], [2, 6, 3, 5, 4], [2, 6, 4, 3, 5], [2, 6, 4, 5, 3], [2, 6, 5, 3, 4], [2, 6, 5, 4, 3], [6, 2, 3, 4, 5], [6, 2, 3, 5, 4], [6, 2, 4, 3, 5], [6, 2, 4, 5, 3], [6, 2, 5, 3, 4], [6, 2, 5, 4, 3], [2, 6, 3, 4, 5], [2, 6, 3, 5, 4], [2, 6, 4, 3, 5], [2, 6, 4, 5, 3], [2, 6, 5, 3, 4], [2, 6, 5, 4, 3], [6, 2, 3, 4, 5], [6, 2, 3, 5, 4], [6, 2, 4, 3, 5], [6, 2, 4, 5, 3], [6, 2, 5, 3, 4], [6, 2, 5, 4, 3]]
  const Test3Block15: seq<seq<int>> := [[3, 6, 0, 1, 4], [3, 6, 0, 4, 1], [3, 6, 1, 0, 4], [3, 6, 1, 4, 0], [3, 6, 4, 0, 1], [3, 6, 4, 1, 0], [6, 3, 0, 1, 4], [6, 3, 0, 4, 1], [6, 3, 1, 0, 4], [6, 3, 1, 4, 0], [6, 3, 4, 0, 1], [6, 3, 4, 1, 0], [3, 6, 0, 1, 4], [3, 6, 0, 4, 1], [3, 6, 1, 0, 4], [3, 6, 1, 4, 0], [3, 6, 4, 0, 1], [3, 6, 4, 1, 0], [6, 3, 0, 1, 4], [6, 3, 0, 4, 1], [6, 3, 1, 0, 4], [6, 3, 1, 4, 0], [6, 3, 4, 0, 1], [6, 3, 4, 1, 0]]
  const Test3Block16: seq<seq<int>> := [[3, 6, 0, 1, 5], [3, 6, 0, 5, 1], [3, 6, 1, 0, 5], [3, 6, 1, 5, 0], [3, 6, 5, 0, 1], [3, 6, 5, 1, 0], [6, 3, 0, 1, 5], [6, 3, 0, 5, 1], [6, 3, 1, 0, 5], [6, 3, 1, 5, 0], [6, 3, 5, 0, 1], [6, 3, 5, 1, 0], [3, 6, 0, 1, 5], [3, 6, 0, 5, 1], [3, 6, 1, 0, 5], [3, 6, 1, 5, 0], [3, 6, 5, 0, 1], [3, 6, 5, 1, 0], [6, 3, 0, 1, 5], [6, 3, 0, 5, 1], [6, 3, 1, 0, 5], [6, 3, 1, 5, 0], [6, 3, 5, 0, 1], [6, 3, 5, 1, 0]]
  const Test3Block17: seq<seq<int>> := [[3, 6, 0, 4, 5], [3, 6, 0, 5, 4], [3, 6, 4, 0, 5], [3, 6, 4, 5, 0], [3, 6, 5, 0, 4], [3, 6, 5, 4, 0], [6, 3, 0, 4, 5], [6, 3, 0, 5, 4], [6, 3, 4, 0, 5], [6, 3, 4, 5, 0], [6, 3, 5, 0, 4], [6, 3, 5, 4, 0], [3, 6, 0, 4, 5], [3, 6, 0, 5, 4], [3, 6, 4, 0, 5], [3, 6, 4, 5, 0], [3, 6, 5, 0, 4], [3, 6, 5, 4, 0], [6, 3, 0, 4, 5], [6, 3, 0, 5, 4], [6, 3, 4, 0, 5], [6, 3, 4, 5, 0], [6, 3, 5, 0, 4], [6, 3, 5, 4, 0]]
  const Test3Block18: seq<seq<int>> := [[3, 6, 1, 4, 5], [3, 6, 1, 5, 4], [3, 6, 4, 1, 5], [3, 6, 4, 5, 1], [3, 6, 5, 1, 4], [3, 6, 5, 4, 1], [6, 3, 1, 4, 5], [6, 3, 1, 5, 4], [6, 3, 4, 1, 5], [6, 3, 4, 5, 1], [6, 3, 5, 1, 4], [6, 3, 5, 4, 1], [3, 6, 1, 4, 5], [3, 6, 1, 5, 4], [3, 6, 4, 1, 5], [3, 6, 4, 5, 1], [3, 6, 5, 1, 4], [3, 6, 5, 4, 1], [6, 3, 1, 4, 5], [6, 3, 1, 5, 4], [6, 3, 4, 1, 5], [6, 3, 4, 5, 1], [6, 3, 5, 1, 4], [6, 3, 5, 4, 1]]
  const Test3Blocks: seq<seq<seq<int>>> := [Test3Block00, Test3Block01, Test3Block02, Test3Block03, Test3Block04, Test3Block05, Test3Block06, Test3Block07, Test3Block08, Test3Block09, Test3Block10, Test3Block11, Test3Block12, Test3Block13, Test3Block14, Test3Block15, Test3Block16, Test3Block17, Test3Block18]
  const Test3Wanted: seq<seq<int>> := Concat(Test3Blocks)
  /** The candidates of test3: the first quad of each block. */
  const Test3Bases: seq<seq<int>> := [[2, 5, 0, 1, 3], [2, 5, 0, 1, 4], [2, 5, 0, 3, 4], [2, 5, 1, 3, 4], [0, 1, 5, 3, 4], [2, 6, 0, 1, 3], [2, 6, 0, 1, 4], [2, 6, 0, 1, 5], [2, 6, 0, 3, 4], [2, 6, 0, 3, 5], [2, 6, 0, 4, 5], [2, 6, 1, 3, 4], [2, 6, 1, 3, 5], [2, 6, 1, 4, 5], [2, 6, 3, 4, 5], [3, 6, 0, 1, 4], [3, 6, 0, 1, 5], [3, 6, 0, 4, 5], [3, 6, 1, 4, 5]]

  /** Each block of test3's wanted list is the listed block of its candidate. */
  lemma Test3BlocksListed()
    ensures |Test3Bases| == |Test3Blocks| == 19
    ensures forall k :: 0 <= k < 19 ==> |Test3Bases[k]| == 5 && ListedBlock(Test3Bases[k]) == Test3Blocks[k]
  {
  }

  /** The wanted list of test3 is the expansion of its 19 candidates, 456 quads in all. */
  lemma Test3Expansion()
    ensures Candidates(Test3Bases, 5) && Emission(Test3Bases, 5) == Test3Wanted
  {
    Test3BlocksListed();
    EmissionOfListed(Test3Bases, 5, Test3Blocks);
  }

  /** Each candidate of test3 names 5 different stars of field1. */
  lemma Test3BasesStarIds()
    ensures forall k :: 0 <= k < |Test3Bases| ==> |Test3Bases[k]| == 5 && StarIds(Test3Bases[k], FieldStars)
  {
  }

  /** Every quad test3's candidates expand to has 5 ids, naming 5 different stars of field1. */
  lemma Test3StarIds()
    ensures Candidates(Test3Bases, 5)
    ensures forall t :: t in Emission(Test3Bases, 5) ==> |t| == 5 && StarIds(t, FieldStars)
  {
    Test3BasesStarIds();
    EmissionStarIds(Test3Bases, 5, FieldStars);
  }

}
