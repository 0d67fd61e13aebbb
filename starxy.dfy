/**
 * The star-list container: parallel arrays x and y, optional flux and
 * background columns (null when absent), all of length N, and the bounding
 * range computed from the positions.
 */
module Starxy {
  import opened StarLayout

  class StarXY {
    var x: array<real>
    var y: array<real>
    var flux: array?<real>
    var background: array?<real>
    var N: nat
    var xlo: Bound
    var xhi: Bound
    var ylo: Bound
    var yhi: Bound

    /** Every column present has N entries, and the columns are distinct arrays. */
    ghost predicate Valid()
      reads this
    {
      x.Length == N && y.Length == N &&
      (flux != null ==> flux.Length == N) &&
      (background != null ==> background.Length == N) &&
      x != y && flux != x && flux != y && background != x && background != y &&
      (flux != null ==> flux != background)
    }

    /** The arrays that hold the columns. */
    ghost function Repr(): set<object>
      reads this
    {
      {x, y} + (if flux == null then {} else {flux as array<real>})
      + (if background == null then {} else {background as array<real>})
    }

    /** The columns as values. */
    ghost function View(): (s: StarList)
      reads this, Repr()
      requires Valid()
      ensures s.Valid() && s.Count() == N
      ensures s.HasFlux() == (flux != null) && s.HasBackground() == (background != null)
    {
      StarList(x[..], y[..],
               if flux != null then Some(flux[..]) else None,
               if background != null then Some(background[..]) else None)
    }

    /** starxy_alloc: a zeroed struct whose columns are then allocated as starxy_alloc_data does. */
    constructor (n: nat, withFlux: bool, withBackground: bool)
      ensures Valid() && N == n && fresh(Repr())
      ensures (flux != null) == withFlux && (background != null) == withBackground
      ensures xlo == xhi == ylo == yhi == Finite(0.0)
    {
      x := new real[n];
      y := new real[n];
      if withFlux {
        flux := new real[n];
      } else {
        flux := null;
      }
      if withBackground {
        background := new real[n];
      } else {
        background := null;
      }
      N := n;
      xlo, xhi, ylo, yhi := Finite(0.0), Finite(0.0), Finite(0.0), Finite(0.0);
    }

    /**
     * starxy_alloc_data: fresh x and y columns of n entries, flux and
     * background columns of n entries only when asked for (null otherwise).
     * The contents of the new columns are unspecified.
     */
    method AllocData(n: nat, withFlux: bool, withBackground: bool)
      modifies this
      ensures Valid() && N == n && fresh(Repr())
      ensures (flux != null) == withFlux && (background != null) == withBackground
      ensures xlo == old(xlo) && xhi == old(xhi) && ylo == old(ylo) && yhi == old(yhi)
    {
      x := new real[n];
      y := new real[n];
      if withFlux {
        flux := new real[n];
      } else {
        flux := null;
      }
      if withBackground {
        background := new real[n];
      } else {
        background := null;
      }
      N := n;
    }

    /** starxy_n: the number of stars, which is the length of every column. */
    function Count(): (n: nat)
      reads this
      requires Valid()
      ensures n == x.Length && n == y.Length
      ensures flux != null ==> n == flux.Length
      ensures background != null ==> n == background.Length
    {
      N
    }

    /** starxy_getx: the x position of star i (i below N). */
    function GetX(i: nat): (v: real)
      reads this, Repr()
      requires Valid() && i < N
      ensures v == View().x[i]
    {
      x[i]
    }

    /** starxy_gety: the y position of star i (i below N). */
    function GetY(i: nat): (v: real)
      reads this, Repr()
      requires Valid() && i < N
      ensures v == View().y[i]
    {
      y[i]
    }

    /** starxy_get: writes the position of star i into out[0] and out[1]; nothing else changes. */
    method Get(i: nat, out: array<real>)
      requires Valid() && i < N
      requires out.Length >= 2 && out !in Repr()
      modifies out
      ensures out[0] == View().x[i] && out[1] == View().y[i]
      ensures out[2..] == old(out[2..])
    {
      out[0] := GetX(i);
      out[1] := GetY(i);
    }

    /** starxy_setx: only slot i of the x column changes. */
    method SetX(i: nat, val: real)
      requires Valid() && i < N
      modifies x
      ensures Valid() && GetX(i) == val
      ensures View() == old(View()).(x := old(View()).x[i := val])
    {
      x[i] := val;
    }

    /** starxy_sety: only slot i of the y column changes. */
    method SetY(i: nat, val: real)
      requires Valid() && i < N
      modifies y
      ensures Valid() && GetY(i) == val
      ensures View() == old(View()).(y := old(View()).y[i := val])
    {
      y[i] := val;
    }

    /** starxy_set: only slot i of the x and y columns changes. */
    method Set(i: nat, vx: real, vy: real)
      requires Valid() && i < N
      modifies x, y
      ensures Valid() && GetX(i) == vx && GetY(i) == vy
      ensures View() == old(View()).(x := old(View()).x[i := vx], y := old(View()).y[i := vy])
    {
      x[i] := vx;
      y[i] := vy;
    }

    /**
     * starxy_compute_range: the bounds start at +HUGE_VAL / -HUGE_VAL and are
     * folded with MIN and MAX over the positions, so afterwards they are
     * Lower and Upper of the columns: the exact extremes, or the sentinels
     * when there are no stars (LowerIsMinimum, UpperIsMaximum).
     */
    method ComputeRange()
      requires Valid()
      modifies this`xlo, this`xhi, this`ylo, this`yhi
      ensures Valid() && View() == old(View())
      ensures xlo == Lower(x[..]) && xhi == Upper(x[..])
      ensures ylo == Lower(y[..]) && yhi == Upper(y[..])
    {
      xlo, ylo := PosInf, PosInf;
      xhi, yhi := NegInf, NegInf;
      ghost var xs, ys := x[..], y[..];
      var n := Count();
      for i := 0 to n
        invariant xlo == Lower(xs[..i]) && xhi == Upper(xs[..i])
        invariant ylo == Lower(ys[..i]) && yhi == Upper(ys[..i])
      {
        RangeStep(xs, i);
        RangeStep(ys, i);
        var vx, vy := GetX(i), GetY(i);
        xlo := Min(xlo, Finite(vx));
        xhi := Max(xhi, Finite(vx));
        ylo := Min(ylo, Finite(vy));
        yhi := Max(yhi, Finite(vy));
      }
      assert xs[..n] == xs && ys[..n] == ys;
    }

    /** starxy_copy_x: a fresh array equal to the x column. */
    method CopyX() returns (res: array<real>)
      requires Valid()
      ensures fresh(res) && res[..] == View().x
    {
      res := new real[Count()];
      forall i | 0 <= i < res.Length {
        res[i] := x[i];
      }
    }

    /** starxy_copy_y: a fresh array equal to the y column. */
    method CopyY() returns (res: array<real>)
      requires Valid()
      ensures fresh(res) && res[..] == View().y
    {
      res := new real[Count()];
      forall i | 0 <= i < res.Length {
        res[i] := y[i];
      }
    }

    /**
     * starxy_copy_xy: a fresh array of 2N values with x[i] at 2i and y[i] at
     * 2i+1, which is the flat layout of the positions alone.
     */
    method CopyXY() returns (res: array<real>)
      requires Valid()
      ensures fresh(res) && res.Length == 2 * N
      ensures res[..] == ToFlat(StarList(x[..], y[..], None, None))
      ensures forall i :: 0 <= i < N ==> res[2 * i] == x[i] && res[2 * i + 1] == y[i]
    {
      var n := Count();
      ghost var xy := StarList(x[..], y[..], None, None);
      res := new real[2 * n];
      for i := 0 to n
        invariant res[..2 * i] == Flatten(xy, i)
      {
        res[2 * i + 0] := GetX(i);
        res[2 * i + 1] := GetY(i);
        assert res[..2 * (i + 1)] == res[..2 * i] + [x[i], y[i]];
      }
      assert res[..] == res[..2 * n];
      forall i | 0 <= i < n
        ensures res[2 * i] == x[i] && res[2 * i + 1] == y[i]
      {
        FlattenAt(xy, n, i, 0);
        FlattenAt(xy, n, i, 1);
      }
    }

    /**
     * starxy_to_flat_array: writes nr values per star, nr = 2 + (flux present)
     * + (background present), record i at offset nr*i in the order x, y,
     * [flux], [background].  When no array is passed a fresh one of nr*N
     * values is allocated; a passed array keeps its entries past nr*N.
     */
    method ToFlatArray(arr: array?<real>) returns (res: array<real>)
      requires Valid()
      requires arr != null ==> arr.Length >= StrideOf(View()) * N && arr !in Repr()
      modifies arr
      ensures Valid() && View() == old(View())
      ensures arr == null ==> fresh(res) && res.Length == StrideOf(View()) * N
      ensures arr != null ==> res == arr
      ensures res.Length >= StrideOf(View()) * N
      ensures res[..StrideOf(View()) * N] == ToFlat(View())
      ensures arr != null ==> res[StrideOf(View()) * N..] == old(arr[StrideOf(View()) * N..])
    {
      var nr := 2;
      if flux != null {
        nr := nr + 1;
      }
      if background != null {
        nr := nr + 1;
      }
      assert nr == StrideOf(View());
      if arr == null {
        res := new real[nr * Count()];
      } else {
        res := arr;
      }
      FillFlat(res, nr);
    }

    /** The loop of starxy_to_flat_array: the records of all stars, one after another, at the front of res. */
    method FillFlat(res: array<real>, nr: nat)
      requires Valid() && res !in Repr()
      requires nr == StrideOf(View()) && |ToFlat(View())| <= res.Length
      modifies res
      ensures res[..|ToFlat(View())|] == ToFlat(View())
      ensures res[|ToFlat(View())|..] == old(res[|ToFlat(View())|..])
    {
      ghost var s := View();
      ghost var total := |ToFlat(s)|;
      ghost var orig := res[..];
      var ind := 0;
      for i := 0 to N
        invariant ind == |Flatten(s, i)| <= total
        invariant res[..] == Flatten(s, i) + orig[ind..]
        invariant Valid() && View() == s
      {
        FlattenGrows(s, i);
        ghost var pre := res[..];
        var next := WriteRecord(res, ind, i);
        Splice(pre, orig, Flatten(s, i), Record(s, i), ind);
        ind := next;
      }
      SplitJoin(res[..], ToFlat(s), orig[total..]);
    }

    /**
     * One pass of the loop of starxy_to_flat_array: writes record i at the
     * cursor and returns the cursor moved past it; nothing else in res changes.
     */
    method WriteRecord(res: array<real>, ind: nat, i: nat) returns (next: nat)
      requires Valid() && i < N && res != x && res != y && res != flux && res != background
      requires ind + StrideOf(View()) <= res.Length
      modifies res
      ensures next == ind + StrideOf(View())
      ensures View() == old(View())
      ensures res[..] == old(res[..ind]) + Record(View(), i) + old(res[next..])
    {
      next := ind;
      res[next] := x[i];
      next := next + 1;
      res[next] := y[i];
      next := next + 1;
      if flux != null {
        res[next] := flux[i];
        next := next + 1;
      }
      if background != null {
        res[next] := background[i];
        next := next + 1;
      }
    }

    /**
     * starxy_from_dl: allocates N = len/nr stars (trailing values that do not
     * fill a record are ignored) and reads record i from offset nr*i in the
     * order x, y, [flux], [background].
     */
    method FromDl(l: seq<real>, withFlux: bool, withBackground: bool)
      modifies this
      ensures Valid() && fresh(Repr())
      ensures View() == FromFlat(l, withFlux, withBackground)
      ensures N == |l| / Stride(withFlux, withBackground)
      ensures xlo == old(xlo) && xhi == old(xhi) && ylo == old(ylo) && yhi == old(yhi)
    {
      var nr := 2;
      if withFlux {
        nr := nr + 1;
      }
      if withBackground {
        nr := nr + 1;
      }
      assert nr == Stride(withFlux, withBackground);
      AllocData(|l| / nr, withFlux, withBackground);
      FillColumns(l, nr, FromFlat(l, withFlux, withBackground));
    }

    /**
     * The loop of starxy_from_dl: slot i of every column takes its value
     * from record i of l, which starts at Offset(nr, i).
     */
    method FillColumns(l: seq<real>, nr: nat, ghost target: StarList)
      requires Valid() && nr == Stride(flux != null, background != null)
      requires target == FromFlat(l, flux != null, background != null) && N == target.Count()
      modifies x, y, flux, background
      ensures Valid() && View() == target
    {
      var ind := 0;
      for i := 0 to N
        invariant ind == Offset(nr, i)
        invariant forall j :: 0 <= j < i ==> x[j] == target.x[j]
        invariant forall j :: 0 <= j < i ==> y[j] == target.y[j]
        invariant flux != null ==> forall j :: 0 <= j < i ==> flux[j] == target.flux.value[j]
        invariant background != null ==> forall j :: 0 <= j < i ==> background[j] == target.background.value[j]
      {
        FromFlatAtOffset(l, flux != null, background != null, i);
        ind := ReadRecord(l, ind, i);
      }
      assert x[..] == target.x && y[..] == target.y;
      if flux != null {
        assert flux[..] == target.flux.value;
      }
      if background != null {
        assert background[..] == target.background.value;
      }
    }

    /**
     * One pass of the loop of starxy_from_dl: reads record i from the cursor
     * into slot i of each column and returns the cursor moved past it.
     */
    method ReadRecord(l: seq<real>, ind: nat, i: nat) returns (next: nat)
      requires Valid() && i < N
      requires ind + Stride(flux != null, background != null) <= |l|
      modifies x, y, flux, background
      ensures next == ind + Stride(flux != null, background != null)
      ensures x[i] == l[ind] && y[i] == l[ind + 1]
      ensures flux != null ==> flux[i] == l[ind + 2]
      ensures background != null ==> background[i] == l[ind + BackgroundOffset(flux != null)]
      ensures forall j :: 0 <= j < N && j != i ==> x[j] == old(x[j])
      ensures forall j :: 0 <= j < N && j != i ==> y[j] == old(y[j])
      ensures flux != null ==> forall j :: 0 <= j < N && j != i ==> flux[j] == old(flux[j])
      ensures background != null ==> forall j :: 0 <= j < N && j != i ==> background[j] == old(background[j])
    {
      next := ind;
      x[i] := l[next];
      next := next + 1;
      y[i] := l[next];
      next := next + 1;
      if flux != null {
        flux[i] := l[next];
        next := next + 1;
      }
      if background != null {
        background[i] := l[next];
        next := next + 1;
      }
    }
  }

  /** A list made of p then q splits back into p and q. */
  lemma SplitJoin(r: seq<real>, p: seq<real>, q: seq<real>)
    requires r == p + q
    ensures r[..|p|] == p && r[|p|..] == q
  {
  }

  /** Overwriting the nr entries after a written prefix extends the prefix and keeps the rest. */
  lemma Splice(pre: seq<real>, orig: seq<real>, done: seq<real>, rec: seq<real>, ind: nat)
    requires |done| == ind && ind + |rec| <= |orig| && pre == done + orig[ind..]
    ensures pre[..ind] + rec + pre[ind + |rec|..] == (done + rec) + orig[ind + |rec|..]
  {
    assert pre[..ind] == done;
    assert pre[ind + |rec|..] == orig[ind + |rec|..];
  }
}
