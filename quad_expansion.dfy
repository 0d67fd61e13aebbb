/**
 * The order in which a candidate quad is offered to the solver's
 * try-permutations hook: both orders of the anchor pair, and for each every
 * ordering of the interior stars.  The enumeration that chooses the candidate
 * quads is not part of this model; only this expansion of one candidate is.
 */
module QuadExpansion {

  function Factorial(n: nat): (f: nat)
    ensures f >= 1
  {
    if n == 0 then 1 else n * Factorial(n - 1)
  }

  /** s with the element at position i taken out, the others keeping their order. */
  function Without(s: seq<int>, i: nat): (r: seq<int>)
    requires i < |s|
    ensures |r| == |s| - 1
    ensures multiset(r) + multiset{s[i]} == multiset(s)
  {
    assert s == s[..i] + [s[i]] + s[i + 1..];
    s[..i] + s[i + 1..]
  }

  /** Puts head in front of every sequence of ps. */
  function PrefixAll(head: seq<int>, ps: seq<seq<int>>): (r: seq<seq<int>>)
    ensures |r| == |ps|
    ensures forall k :: 0 <= k < |r| ==> r[k] == head + ps[k]
  {
    seq(|ps|, k requires 0 <= k < |ps| => head + ps[k])
  }

  /**
   * Every ordering of s, generated by taking each element first in turn, in
   * the order of its position in s, followed by every ordering of the rest:
   * [5,3,4] gives 534, 543, 354, 345, 453, 435.
   */
  function Permutations(s: seq<int>): (r: seq<seq<int>>)
    ensures |r| == Factorial(|s|)
    decreases |s|, |s| + 1
  {
    if |s| == 0 then [[]] else PickEach(s, 0)
  }

  /** The orderings of s that start with s[i], s[i+1], ..., in that order. */
  function PickEach(s: seq<int>, i: nat): (r: seq<seq<int>>)
    requires 0 < |s| && i <= |s|
    ensures |r| == (|s| - i) * Factorial(|s| - 1)
    decreases |s|, |s| - i
  {
    if i == |s| then []
    else
      var r := PrefixAll([s[i]], Permutations(Without(s, i))) + PickEach(s, i + 1);
      assert (|s| - i) * Factorial(|s| - 1) == Factorial(|s| - 1) + (|s| - (i + 1)) * Factorial(|s| - 1);
      r
  }

  /** Every sequence Permutations(s) produces is a rearrangement of s. */
  lemma {:induction false} PermutationsSound(s: seq<int>)
    ensures forall p :: p in Permutations(s) ==> multiset(p) == multiset(s)
    decreases |s|, |s| + 1
  {
    if |s| > 0 {
      PickEachSound(s, 0);
    }
  }

  lemma {:induction false} PickEachSound(s: seq<int>, i: nat)
    requires 0 < |s| && i <= |s|
    ensures forall p :: p in PickEach(s, i) ==> multiset(p) == multiset(s)
    decreases |s|, |s| - i
  {
    if i < |s| {
      var rest := Without(s, i);
      PermutationsSound(rest);
      PickEachSound(s, i + 1);
      PrefixAllSound([s[i]], Permutations(rest), multiset(rest));
      assert PickEach(s, i) == PrefixAll([s[i]], Permutations(rest)) + PickEach(s, i + 1);
    }
  }

  /** Prefixing rearrangements of one multiset by the same head gives rearrangements of their union. */
  lemma PrefixAllSound(head: seq<int>, ps: seq<seq<int>>, m: multiset<int>)
    requires forall p :: p in ps ==> multiset(p) == m
    ensures forall p :: p in PrefixAll(head, ps) ==> multiset(p) == multiset(head) + m
  {
    forall p | p in PrefixAll(head, ps)
      ensures multiset(p) == multiset(head) + m
    {
      var k :| 0 <= k < |ps| && PrefixAll(head, ps)[k] == p;
      assert ps[k] in ps;
    }
  }

  /** Every rearrangement of s occurs in Permutations(s). */
  lemma {:induction false} PermutationsComplete(s: seq<int>, p: seq<int>)
    requires multiset(p) == multiset(s)
    ensures p in Permutations(s)
    decreases |s|
  {
    assert |p| == |multiset(p)| == |multiset(s)| == |s|;
    if |s| == 0 {
      assert p == [];
    } else {
      assert p[0] in multiset(s);
      var i :| 0 <= i < |s| && s[i] == p[0];
      var rest := Without(s, i);
      assert p == [p[0]] + p[1..];
      assert multiset(p[1..]) == multiset(rest) by {
        assert multiset(p) == multiset{p[0]} + multiset(p[1..]);
        forall v
          ensures multiset(p[1..])[v] == multiset(rest)[v]
        {
          assert multiset(p)[v] == multiset(s)[v];
        }
      }
      PermutationsComplete(rest, p[1..]);
      var k :| 0 <= k < |Permutations(rest)| && Permutations(rest)[k] == p[1..];
      PickEachContains(s, 0, i, k);
    }
  }

  /** PickEach(s, j) holds, for each i >= j, s[i] followed by each ordering of the rest. */
  lemma {:induction false} PickEachContains(s: seq<int>, j: nat, i: nat, k: nat)
    requires 0 < |s| && j <= i < |s| && k < |Permutations(Without(s, i))|
    ensures [s[i]] + Permutations(Without(s, i))[k] in PickEach(s, j)
    decreases i - j
  {
    var front := PrefixAll([s[j]], Permutations(Without(s, j)));
    if j == i {
      assert front[k] in front;
    } else {
      PickEachContains(s, j + 1, i, k);
    }
  }

  /** Prefixed by the anchor pair (a, b): the quads [a, b] + each interior ordering. */
  function AnchoredAs(a: int, b: int, interior: seq<int>): (r: seq<seq<int>>)
    ensures |r| == Factorial(|interior|)
  {
    PrefixAll([a, b], Permutations(interior))
  }

  /**
   * The quads one candidate (A, B, interior...) expands into: anchor order
   * (A, B) with every interior ordering, then (B, A) with the same orderings.
   */
  function AnchorOrders(q: seq<int>): (r: seq<seq<int>>)
    requires |q| >= 2
  {
    AnchoredAs(q[0], q[1], q[2..]) + AnchoredAs(q[1], q[0], q[2..])
  }

  /**
   * 2 * (dimquad - 2)! quads: the first half start with the anchor pair as
   * given, the second half with the pair swapped, and both halves run through
   * the interior orderings in the same order.
   */
  lemma AnchorOrdersShape(q: seq<int>)
    requires |q| >= 2
    ensures |AnchorOrders(q)| == 2 * Factorial(|q| - 2)
    ensures forall k :: 0 <= k < Factorial(|q| - 2) ==>
              AnchorOrders(q)[k] == [q[0], q[1]] + Permutations(q[2..])[k] &&
              AnchorOrders(q)[Factorial(|q| - 2) + k] == [q[1], q[0]] + Permutations(q[2..])[k]
  {
  }

  /** Each quad of the expansion holds the same star ids as the candidate, each once as often. */
  lemma AnchorOrdersSound(q: seq<int>)
    requires |q| >= 2
    ensures forall t :: t in AnchorOrders(q) ==> |t| == |q| && multiset(t) == multiset(q)
  {
    var interior := q[2..];
    PermutationsSound(interior);
    PrefixAllSound([q[0], q[1]], Permutations(interior), multiset(interior));
    PrefixAllSound([q[1], q[0]], Permutations(interior), multiset(interior));
    assert q == [q[0], q[1]] + interior;
    assert multiset([q[1], q[0]]) == multiset([q[0], q[1]]);
    forall t | t in AnchorOrders(q)
      ensures |t| == |q| && multiset(t) == multiset(q)
    {
      assert |t| == |multiset(t)| == |multiset(q)| == |q|;
    }
  }

  /** Every quad that keeps the anchor pair in front (in either order) and rearranges the interior is produced. */
  lemma AnchorOrdersComplete(q: seq<int>, t: seq<int>)
    requires |q| >= 2 && |t| >= 2
    requires t[..2] == [q[0], q[1]] || t[..2] == [q[1], q[0]]
    requires multiset(t[2..]) == multiset(q[2..])
    ensures t in AnchorOrders(q)
  {
    var interior := q[2..];
    PermutationsComplete(interior, t[2..]);
    var k :| 0 <= k < |Permutations(interior)| && Permutations(interior)[k] == t[2..];
    assert t == t[..2] + t[2..];
    AnchorOrdersShape(q);
    var i := if t[..2] == [q[0], q[1]] then k else Factorial(|interior|) + k;
    assert AnchorOrders(q)[i] == t;
  }

  /** What the hook receives for one candidate: its anchor-order expansion, offered twice in a row. */
  function Block(q: seq<int>): (r: seq<seq<int>>)
    requires |q| >= 2
    ensures |r| == 4 * Factorial(|q| - 2)
  {
    AnchorOrdersShape(q);
    AnchorOrders(q) + AnchorOrders(q)
  }

  /** The second half of a block repeats the first, and each half is the anchor-order expansion. */
  lemma BlockRepeats(q: seq<int>)
    requires |q| >= 2
    ensures var r := Block(q);
            var half := 2 * Factorial(|q| - 2);
            |r| == 2 * half && r[..half] == r[half..] == AnchorOrders(q)
  {
    AnchorOrdersShape(q);
    var a := AnchorOrders(q);
    assert Block(q)[..|a|] == a && Block(q)[|a|..] == a;
  }

  /** The orderings of one, two and three interior stars, in generation order. */
  lemma PermutationsOfOne(a: int)
    ensures Permutations([a]) == [[a]]
  {
    assert Without([a], 0) == [];
    PrefixOne([a], []);
    assert [a] + [] == [a];
    assert PickEach([a], 1) == [];
    assert PickEach([a], 0) == PrefixAll([a], [[]]) + [];
  }

  lemma PermutationsOfTwo(a: int, b: int)
    ensures Permutations([a, b]) == [[a, b], [b, a]]
  {
    var s := [a, b];
    assert Without(s, 0) == [b];
    assert Without(s, 1) == [a];
    PermutationsOfOne(a);
    PermutationsOfOne(b);
    PrefixOne([a], [b]);
    PrefixOne([b], [a]);
    assert [a] + [b] == [a, b] && [b] + [a] == [b, a];
    assert PickEach(s, 2) == [];
    assert PickEach(s, 1) == PrefixAll([b], [[a]]) + [];
    assert PickEach(s, 0) == PrefixAll([a], [[b]]) + PickEach(s, 1);
  }

  lemma PermutationsOfThree(a: int, b: int, c: int)
    ensures Permutations([a, b, c]) == [[a, b, c], [a, c, b], [b, a, c], [b, c, a], [c, a, b], [c, b, a]]
  {
    PickEachOfThree(a, b, c);
  }

  lemma PickEachOfThree(a: int, b: int, c: int)
    ensures PickEach([a, b, c], 0) == [[a, b, c], [a, c, b], [b, a, c], [b, c, a], [c, a, b], [c, b, a]]
  {
    var s := [a, b, c];
    calc {
      PickEach(s, 0);
    == { assert Without(s, 0) == [b, c]; }
      PrefixAll([a], Permutations([b, c])) + PickEach(s, 1);
    == { PrefixTwo(a, b, c); PickLaterOfThree(a, b, c); }
      [[a, b, c], [a, c, b]] + [[b, a, c], [b, c, a], [c, a, b], [c, b, a]];
    == { JoinTwoFour([a, b, c], [a, c, b], [b, a, c], [b, c, a], [c, a, b], [c, b, a]); }
      [[a, b, c], [a, c, b], [b, a, c], [b, c, a], [c, a, b], [c, b, a]];
    }
  }

  lemma PickLaterOfThree(a: int, b: int, c: int)
    ensures PickEach([a, b, c], 1) == [[b, a, c], [b, c, a], [c, a, b], [c, b, a]]
  {
    var s := [a, b, c];
    calc {
      PickEach(s, 1);
    == { assert Without(s, 1) == [a, c]; }
      PrefixAll([b], Permutations([a, c])) + PickEach(s, 2);
    == { PrefixTwo(b, a, c); PickLastOfThree(a, b, c); }
      [[b, a, c], [b, c, a]] + [[c, a, b], [c, b, a]];
    == { JoinTwoTwo([b, a, c], [b, c, a], [c, a, b], [c, b, a]); }
      [[b, a, c], [b, c, a], [c, a, b], [c, b, a]];
    }
  }

  lemma PickLastOfThree(a: int, b: int, c: int)
    ensures PickEach([a, b, c], 2) == [[c, a, b], [c, b, a]]
  {
    var s := [a, b, c];
    assert Without(s, 2) == [a, b];
    PrefixTwo(c, a, b);
    assert PickEach(s, 3) == [];
    assert PickEach(s, 2) == [[c, a, b], [c, b, a]] + [];
  }

  lemma JoinTwoTwo(p0: seq<int>, p1: seq<int>, p2: seq<int>, p3: seq<int>)
    ensures [p0, p1] + [p2, p3] == [p0, p1, p2, p3]
  {
  }

  lemma JoinTwoFour(p0: seq<int>, p1: seq<int>, p2: seq<int>, p3: seq<int>, p4: seq<int>, p5: seq<int>)
    ensures [p0, p1] + [p2, p3, p4, p5] == [p0, p1, p2, p3, p4, p5]
  {
  }

  lemma PrefixOne(head: seq<int>, p: seq<int>)
    ensures PrefixAll(head, [p]) == [head + p]
  {
    var r := PrefixAll(head, [p]);
    assert |r| == 1 && r[0] == head + p;
  }

  /** head in front of the two orderings of [p, q]. */
  lemma PrefixTwo(head: int, p: int, q: int)
    ensures PrefixAll([head], Permutations([p, q])) == [[head, p, q], [head, q, p]]
  {
    PermutationsOfTwo(p, q);
    var r := PrefixAll([head], [[p, q], [q, p]]);
    assert r[0] == [head] + [p, q] == [head, p, q];
    assert r[1] == [head] + [q, p] == [head, q, p];
  }

  /** With three stars: (A,B,C), (B,A,C), offered twice. */
  lemma BlockOfTri(a: int, b: int, c: int)
    ensures Block([a, b, c]) == [[a, b, c], [b, a, c], [a, b, c], [b, a, c]]
  {
    assert [a, b, c][2..] == [c];
    PermutationsOfOne(c);
    PrefixOne([a, b], [c]);
    PrefixOne([b, a], [c]);
    assert [a, b] + [c] == [a, b, c] && [b, a] + [c] == [b, a, c];
    assert AnchorOrders([a, b, c]) == [[a, b, c], [b, a, c]];
  }

  /** With four stars: (A,B,C,D), (A,B,D,C), (B,A,C,D), (B,A,D,C), offered twice. */
  lemma BlockOfQuad(a: int, b: int, c: int, d: int)
    ensures Block([a, b, c, d]) ==
              [[a, b, c, d], [a, b, d, c], [b, a, c, d], [b, a, d, c],
               [a, b, c, d], [a, b, d, c], [b, a, c, d], [b, a, d, c]]
  {
    assert [a, b, c, d][2..] == [c, d];
    AnchoredAsTwo(a, b, c, d);
    AnchoredAsTwo(b, a, c, d);
    assert AnchorOrders([a, b, c, d]) == [[a, b, c, d], [a, b, d, c]] + [[b, a, c, d], [b, a, d, c]];
  }

  lemma AnchoredAsTwo(a: int, b: int, c: int, d: int)
    ensures AnchoredAs(a, b, [c, d]) == [[a, b, c, d], [a, b, d, c]]
  {
    PermutationsOfTwo(c, d);
    var r := AnchoredAs(a, b, [c, d]);
    assert r[0] == [a, b] + [c, d] == [a, b, c, d];
    assert r[1] == [a, b] + [d, c] == [a, b, d, c];
  }

  /** With five stars: (A,B) and then (B,A), each followed by the six interior orders, offered twice. */
  lemma BlockOfQuint(a: int, b: int, c: int, d: int, e: int)
    ensures Block([a, b, c, d, e]) ==
              [[a, b, c, d, e], [a, b, c, e, d], [a, b, d, c, e], [a, b, d, e, c], [a, b, e, c, d], [a, b, e, d, c],
               [b, a, c, d, e], [b, a, c, e, d], [b, a, d, c, e], [b, a, d, e, c], [b, a, e, c, d], [b, a, e, d, c],
               [a, b, c, d, e], [a, b, c, e, d], [a, b, d, c, e], [a, b, d, e, c], [a, b, e, c, d], [a, b, e, d, c],
               [b, a, c, d, e], [b, a, c, e, d], [b, a, d, c, e], [b, a, d, e, c], [b, a, e, c, d], [b, a, e, d, c]]
  {
    assert [a, b, c, d, e][2..] == [c, d, e];
    AnchoredAsThree(a, b, c, d, e);
    AnchoredAsThree(b, a, c, d, e);
  }

  lemma AnchoredAsThree(a: int, b: int, c: int, d: int, e: int)
    ensures AnchoredAs(a, b, [c, d, e]) ==
              [[a, b, c, d, e], [a, b, c, e, d], [a, b, d, c, e], [a, b, d, e, c], [a, b, e, c, d], [a, b, e, d, c]]
  {
    PermutationsOfThree(c, d, e);
    PrefixSix([a, b], [c, d, e], [c, e, d], [d, c, e], [d, e, c], [e, c, d], [e, d, c]);
    PairThenThree(a, b, c, d, e);
    PairThenThree(a, b, c, e, d);
    PairThenThree(a, b, d, c, e);
    PairThenThree(a, b, d, e, c);
    PairThenThree(a, b, e, c, d);
    PairThenThree(a, b, e, d, c);
  }

  lemma PrefixSix(head: seq<int>, p0: seq<int>, p1: seq<int>, p2: seq<int>, p3: seq<int>, p4: seq<int>, p5: seq<int>)
    ensures PrefixAll(head, [p0, p1, p2, p3, p4, p5]) ==
              [head + p0, head + p1, head + p2, head + p3, head + p4, head + p5]
  {
  }

  lemma PairThenThree(a: int, b: int, c: int, d: int, e: int)
    ensures [a, b] + [c, d, e] == [a, b, c, d, e]
  {
  }

  /** Every candidate is a tuple of dimquad star ids. */
  predicate Candidates(bases: seq<seq<int>>, dimquad: nat)
  {
    dimquad >= 2 && forall i :: 0 <= i < |bases| ==> |bases[i]| == dimquad
  }

  /** The quads the hook receives for a run of candidates, block after block. */
  function Emission(bases: seq<seq<int>>, dimquad: nat): (r: seq<seq<int>>)
    requires Candidates(bases, dimquad)
    ensures |r| == |bases| * (4 * Factorial(dimquad - 2))
  {
    if |bases| == 0 then []
    else
      var r := Block(bases[0]) + Emission(bases[1..], dimquad);
      assert |bases| * (4 * Factorial(dimquad - 2)) == 4 * Factorial(dimquad - 2) + (|bases| - 1) * (4 * Factorial(dimquad - 2));
      r
  }

  /** Block k of the emission (each block has 4 * (dimquad - 2)! quads) is the block of candidate k. */
  lemma {:induction false} EmissionBlock(bases: seq<seq<int>>, dimquad: nat, k: nat)
    requires Candidates(bases, dimquad) && k < |bases|
    ensures var w := 4 * Factorial(dimquad - 2);
            (k + 1) * w <= |Emission(bases, dimquad)| &&
            Emission(bases, dimquad)[k * w..(k + 1) * w] == Block(bases[k])
  {
    var w := 4 * Factorial(dimquad - 2);
    var e := Emission(bases, dimquad);
    var head := Block(bases[0]);
    var tail := Emission(bases[1..], dimquad);
    assert e == head + tail;
    assert |head| == w;
    if k == 0 {
      assert e[..w] == head;
    } else {
      EmissionBlock(bases[1..], dimquad, k - 1);
      var lo, hi := (k - 1) * w, k * w;
      assert k * w == w + lo && (k + 1) * w == w + hi by {
        assert k * w == w + (k - 1) * w;
        assert (k + 1) * w == w + k * w;
      }
      SliceAfter(head, tail, lo, hi);
    }
  }

  /**
   * The block for three, four or five stars written out tuple by tuple, as the
   * solver test lists them: an independent statement of Block for those sizes.
   */
  function ListedBlock(q: seq<int>): (r: seq<seq<int>>)
    requires 3 <= |q| <= 5
    ensures |r| == 4 * Factorial(|q| - 2)
    ensures r[..|r| / 2] == r[|r| / 2..]
  {
    if |q| == 3 then
      [[q[0], q[1], q[2]], [q[1], q[0], q[2]], [q[0], q[1], q[2]], [q[1], q[0], q[2]]]
    else if |q| == 4 then
      var a, b, c, d := q[0], q[1], q[2], q[3];
      [[a, b, c, d], [a, b, d, c], [b, a, c, d], [b, a, d, c],
       [a, b, c, d], [a, b, d, c], [b, a, c, d], [b, a, d, c]]
    else
      var a, b, c, d, e := q[0], q[1], q[2], q[3], q[4];
      [[a, b, c, d, e], [a, b, c, e, d], [a, b, d, c, e], [a, b, d, e, c], [a, b, e, c, d], [a, b, e, d, c],
       [b, a, c, d, e], [b, a, c, e, d], [b, a, d, c, e], [b, a, d, e, c], [b, a, e, c, d], [b, a, e, d, c],
       [a, b, c, d, e], [a, b, c, e, d], [a, b, d, c, e], [a, b, d, e, c], [a, b, e, c, d], [a, b, e, d, c],
       [b, a, c, d, e], [b, a, c, e, d], [b, a, d, c, e], [b, a, d, e, c], [b, a, e, c, d], [b, a, e, d, c]]
  }

  /** For three, four and five stars the generated block is exactly the listed one. */
  lemma ListedBlockIsBlock(q: seq<int>)
    requires 3 <= |q| <= 5
    ensures Block(q) == ListedBlock(q)
  {
    if |q| == 3 {
      assert q == [q[0], q[1], q[2]];
      BlockOfTri(q[0], q[1], q[2]);
    } else if |q| == 4 {
      assert q == [q[0], q[1], q[2], q[3]];
      BlockOfQuad(q[0], q[1], q[2], q[3]);
    } else {
      assert q == [q[0], q[1], q[2], q[3], q[4]];
      BlockOfQuint(q[0], q[1], q[2], q[3], q[4]);
    }
  }

  /** The blocks one after another. */
  function Concat(blocks: seq<seq<seq<int>>>): seq<seq<int>>
  {
    if |blocks| == 0 then [] else blocks[0] + Concat(blocks[1..])
  }

  /**
   * When each candidate's listed block is the matching entry of blocks, the
   * emission is those blocks in order.
   */
  lemma {:induction false} EmissionOfListed(bases: seq<seq<int>>, dimquad: nat, blocks: seq<seq<seq<int>>>)
    requires Candidates(bases, dimquad) && 3 <= dimquad <= 5 && |blocks| == |bases|
    requires forall k :: 0 <= k < |bases| ==> ListedBlock(bases[k]) == blocks[k]
    ensures Emission(bases, dimquad) == Concat(blocks)
    decreases |bases|
  {
    if |bases| > 0 {
      ListedBlockIsBlock(bases[0]);
      EmissionOfListed(bases[1..], dimquad, blocks[1..]);
    }
  }

  lemma SliceAfter(a: seq<seq<int>>, b: seq<seq<int>>, lo: nat, hi: nat)
    requires lo <= hi <= |b|
    ensures (a + b)[|a| + lo..|a| + hi] == b[lo..hi]
  {
  }

  /** Every emitted quad is a rearrangement of one of the candidates. */
  lemma {:induction false} EmissionSound(bases: seq<seq<int>>, dimquad: nat)
    requires Candidates(bases, dimquad)
    ensures forall t :: t in Emission(bases, dimquad) ==>
              |t| == dimquad && exists b :: b in bases && multiset(t) == multiset(b)
  {
    if |bases| > 0 {
      EmissionSound(bases[1..], dimquad);
      AnchorOrdersSound(bases[0]);
      forall t | t in Emission(bases, dimquad)
        ensures |t| == dimquad && exists b :: b in bases && multiset(t) == multiset(b)
      {
        if t in Block(bases[0]) {
          assert t in AnchorOrders(bases[0]);
          assert bases[0] in bases;
        } else {
          assert t in Emission(bases[1..], dimquad);
          var b :| b in bases[1..] && multiset(t) == multiset(b);
          assert b in bases;
        }
      }
    }
  }

  /**
   * The solver test's hook: it appends the star ids it is offered to the quad
   * list, one record per call.  The list was created with records of `width`
   * ids, so each call copies exactly the first `width` ids.
   */
  class QuadList {
    const width: nat
    var quads: seq<seq<int>>

    constructor (width: nat)
      ensures this.width == width && quads == []
    {
      this.width := width;
      quads := [];
    }

    /** test_try_permutations: append stars[..width]; earlier records stay as they were. */
    method TryPermutations(stars: seq<int>)
      requires width <= |stars|
      modifies this
      ensures quads == old(quads) + [stars[..width]]
      ensures |quads| == |old(quads)| + 1 && quads[..|old(quads)|] == old(quads)
    {
      quads := quads + [stars[..width]];
    }
  }
}
