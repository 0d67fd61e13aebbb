/**
 * Value-level description of a star list (the starxy container of the
 * astrometry utilities): its columns, the row-major flat layout used by
 * starxy_to_flat_array and starxy_from_dl, and the bounding range computed by
 * starxy_compute_range.  The class in starxy.dfy is specified against these
 * functions.
 */
module StarLayout {

  datatype Option<T> = None | Some(value: T)

  /**
   * A coordinate bound as starxy_compute_range keeps it: a finite value, or one
   * of the sentinels +HUGE_VAL / -HUGE_VAL it starts from.
   */
  datatype Bound = NegInf | Finite(value: real) | PosInf

  /** The strict order of the bounds (the `<` that MIN and MAX use). */
  predicate Below(a: Bound, b: Bound)
  {
    match (a, b)
    case (NegInf, NegInf) => false
    case (NegInf, _) => true
    case (Finite(u), Finite(v)) => u < v
    case (Finite(_), PosInf) => true
    case (_, _) => false
  }

  predicate AtMost(a: Bound, b: Bound)
  {
    a == b || Below(a, b)
  }

  /** MIN(a, b) of <sys/param.h>: `a < b ? a : b`. */
  function Min(a: Bound, b: Bound): (r: Bound)
    ensures r == a || r == b
    ensures AtMost(r, a) && AtMost(r, b)
  {
    if Below(a, b) then a else b
  }

  /** MAX(a, b) of <sys/param.h>: `a > b ? a : b`. */
  function Max(a: Bound, b: Bound): (r: Bound)
    ensures r == a || r == b
    ensures AtMost(a, r) && AtMost(b, r)
  {
    if Below(b, a) then a else b
  }

  /** The running minimum of the range loop: start at +HUGE_VAL, fold MIN over s. */
  function Lower(s: seq<real>): Bound
  {
    if |s| == 0 then PosInf else Min(Lower(s[..|s| - 1]), Finite(s[|s| - 1]))
  }

  /** The running maximum of the range loop: start at -HUGE_VAL, fold MAX over s. */
  function Upper(s: seq<real>): Bound
  {
    if |s| == 0 then NegInf else Max(Upper(s[..|s| - 1]), Finite(s[|s| - 1]))
  }

  /** One more step of the range loop folds s[i] into both running bounds. */
  lemma RangeStep(s: seq<real>, i: nat)
    requires i < |s|
    ensures Lower(s[..i + 1]) == Min(Lower(s[..i]), Finite(s[i]))
    ensures Upper(s[..i + 1]) == Max(Upper(s[..i]), Finite(s[i]))
  {
    assert s[..i + 1][..i] == s[..i];
  }

  /** Lower(s) is the exact minimum of s, and the +HUGE_VAL sentinel when s is empty. */
  lemma {:induction false} LowerIsMinimum(s: seq<real>)
    ensures |s| == 0 ==> Lower(s) == PosInf
    ensures forall i :: 0 <= i < |s| ==> AtMost(Lower(s), Finite(s[i]))
    ensures |s| > 0 ==> exists i :: 0 <= i < |s| && Lower(s) == Finite(s[i])
  {
    if |s| > 0 {
      var init := s[..|s| - 1];
      LowerIsMinimum(init);
      assert forall i :: 0 <= i < |init| ==> s[i] == init[i];
      if |init| > 0 {
        var j :| 0 <= j < |init| && Lower(init) == Finite(init[j]);
        if Lower(s) == Finite(s[j]) {
          assert 0 <= j < |s| && Lower(s) == Finite(s[j]);
        } else {
          assert 0 <= |s| - 1 < |s| && Lower(s) == Finite(s[|s| - 1]);
        }
      } else {
        assert 0 <= |s| - 1 < |s| && Lower(s) == Finite(s[|s| - 1]);
      }
    }
  }

  /** Upper(s) is the exact maximum of s, and the -HUGE_VAL sentinel when s is empty. */
  lemma {:induction false} UpperIsMaximum(s: seq<real>)
    ensures |s| == 0 ==> Upper(s) == NegInf
    ensures forall i :: 0 <= i < |s| ==> AtMost(Finite(s[i]), Upper(s))
    ensures |s| > 0 ==> exists i :: 0 <= i < |s| && Upper(s) == Finite(s[i])
  {
    if |s| > 0 {
      var init := s[..|s| - 1];
      UpperIsMaximum(init);
      assert forall i :: 0 <= i < |init| ==> s[i] == init[i];
      if |init| > 0 {
        var j :| 0 <= j < |init| && Upper(init) == Finite(init[j]);
        if Upper(s) == Finite(s[j]) {
          assert 0 <= j < |s| && Upper(s) == Finite(s[j]);
        } else {
          assert 0 <= |s| - 1 < |s| && Upper(s) == Finite(s[|s| - 1]);
        }
      } else {
        assert 0 <= |s| - 1 < |s| && Upper(s) == Finite(s[|s| - 1]);
      }
    }
  }

  /**
   * The columns of a star list: positions x and y, and the optional flux and
   * background columns (absent where the C struct holds NULL).
   */
  datatype StarList = StarList(x: seq<real>, y: seq<real>, flux: Option<seq<real>>, background: Option<seq<real>>)
  {
    /** Every present column has one entry per star. */
    predicate Valid()
    {
      |y| == |x| &&
      (flux.Some? ==> |flux.value| == |x|) &&
      (background.Some? ==> |background.value| == |x|)
    }

    function Count(): nat
    {
      |x|
    }

    function HasFlux(): bool
    {
      flux.Some?
    }

    function HasBackground(): bool
    {
      background.Some?
    }
  }

  /** Values per star in the flat layout: x, y, then flux and background when present. */
  function Stride(withFlux: bool, withBackground: bool): (nr: nat)
    ensures 2 <= nr <= 4
    ensures nr == 2 <==> !withFlux && !withBackground
  {
    2 + (if withFlux then 1 else 0) + (if withBackground then 1 else 0)
  }

  function StrideOf(s: StarList): nat
  {
    Stride(s.HasFlux(), s.HasBackground())
  }

  /** Where the background value sits inside a record. */
  function BackgroundOffset(withFlux: bool): nat
  {
    if withFlux then 3 else 2
  }

  /** Record i of the flat layout: x, y, [flux], [background]. */
  function Record(s: StarList, i: nat): (r: seq<real>)
    requires s.Valid() && i < s.Count()
    ensures |r| == StrideOf(s)
    ensures r[0] == s.x[i] && r[1] == s.y[i]
    ensures s.HasFlux() ==> r[2] == s.flux.value[i]
    ensures s.HasBackground() ==> r[BackgroundOffset(s.HasFlux())] == s.background.value[i]
  {
    [s.x[i], s.y[i]]
    + (if s.HasFlux() then [s.flux.value[i]] else [])
    + (if s.HasBackground() then [s.background.value[i]] else [])
  }

  /** Record i of n ends no later than the flat list does (the stride is 2, 3 or 4). */
  lemma StrideStep(nr: nat, i: nat, n: nat)
    requires 2 <= nr <= 4 && i < n
    ensures nr * (i + 1) == nr * i + nr <= nr * n
  {
    if nr == 2 {
    } else if nr == 3 {
    } else {
    }
  }

  /** The first n records laid out one after the other. */
  function Flatten(s: StarList, n: nat): (r: seq<real>)
    requires s.Valid() && n <= s.Count()
    ensures |r| == StrideOf(s) * n
  {
    if n == 0 then []
    else
      var r := Flatten(s, n - 1) + Record(s, n - 1);
      assert StrideOf(s) * n == StrideOf(s) * (n - 1) + StrideOf(s);
      r
  }

  /** The whole star list in the layout of starxy_to_flat_array. */
  function ToFlat(s: StarList): (r: seq<real>)
    requires s.Valid()
    ensures |r| == StrideOf(s) * s.Count()
  {
    Flatten(s, s.Count())
  }

  /** Record i fits after the first i records and within the first n. */
  lemma {:induction false} FlattenGrows(s: StarList, i: nat)
    requires s.Valid() && i < s.Count()
    ensures |Flatten(s, i)| + StrideOf(s) == |Flatten(s, i + 1)| <= |ToFlat(s)|
    ensures Flatten(s, i + 1) == Flatten(s, i) + Record(s, i)
  {
    StrideStep(StrideOf(s), i, s.Count());
  }

  /** Record i starts at offset nr*i; entry k of the record is at nr*i + k. */
  lemma {:induction false} FlattenAt(s: StarList, n: nat, i: nat, k: nat)
    requires s.Valid() && n <= s.Count()
    requires i < n && k < StrideOf(s)
    ensures StrideOf(s) * i + k < |Flatten(s, n)|
    ensures Flatten(s, n)[StrideOf(s) * i + k] == Record(s, i)[k]
  {
    var nr := StrideOf(s);
    StrideStep(nr, i, n);
    if i < n - 1 {
      FlattenAt(s, n - 1, i, k);
      StrideStep(nr, i, n - 1);
    } else {
      assert |Flatten(s, n - 1)| == nr * i;
    }
  }

  /** Where record i starts in a flat list of stride nr, counted record by record. */
  function Offset(nr: nat, i: nat): (o: nat)
  {
    if i == 0 then 0 else Offset(nr, i - 1) + nr
  }

  /** Counting record by record gives nr*i. */
  lemma {:induction false} OffsetIsProduct(nr: nat, i: nat)
    ensures Offset(nr, i) == nr * i
  {
    if i > 0 {
      OffsetIsProduct(nr, i - 1);
    }
  }

  /** Star i of the list read back from l takes its values from the record at Offset(nr, i). */
  lemma FromFlatAtOffset(l: seq<real>, withFlux: bool, withBackground: bool, i: nat)
    requires i < |l| / Stride(withFlux, withBackground)
    ensures var t := FromFlat(l, withFlux, withBackground);
            var off := Offset(Stride(withFlux, withBackground), i);
            off + Stride(withFlux, withBackground) <= |l| &&
            l[off] == t.x[i] && l[off + 1] == t.y[i] &&
            (withFlux ==> l[off + 2] == t.flux.value[i]) &&
            (withBackground ==> l[off + BackgroundOffset(withFlux)] == t.background.value[i])
  {
    var nr := Stride(withFlux, withBackground);
    OffsetIsProduct(nr, i);
    FromFlatRecordAt(l, withFlux, withBackground, i, 0);
    FromFlatRecordAt(l, withFlux, withBackground, i, 1);
    FromFlatRecordAt(l, withFlux, withBackground, i, nr - 1);
    if withFlux {
      FromFlatRecordAt(l, withFlux, withBackground, i, 2);
    }
    if withBackground {
      FromFlatRecordAt(l, withFlux, withBackground, i, BackgroundOffset(withFlux));
    }
  }

  /** Column off of the first n records of a flat list with stride nr. */
  function Column(l: seq<real>, nr: nat, off: nat, n: nat): (c: seq<real>)
    requires 2 <= nr <= 4 && off < nr && nr * n <= |l|
    ensures |c| == n
    ensures forall i :: 0 <= i < n ==> nr * i + off < |l| && c[i] == l[nr * i + off]
  {
    seq(n, i requires 0 <= i < n => StrideStep(nr, i, n); l[nr * i + off])
  }

  /** Division by the stride undoes multiplication by it, and splits an offset into record and field. */
  lemma DivStride(j: nat, nr: nat, n: nat)
    requires 2 <= nr <= 4
    ensures (nr * n) / nr == n
    ensures j == nr * (j / nr) + j % nr && j % nr < nr
    ensures j < nr * n ==> j / nr < n
    ensures nr * n <= j < nr * n + nr ==> j / nr == n
  {
    if nr == 2 {
    } else if nr == 3 {
    } else {
    }
  }

  lemma ColumnPrefix(l: seq<real>, extra: seq<real>, nr: nat, off: nat, n: nat)
    requires 2 <= nr <= 4 && off < nr && nr * n <= |l|
    ensures Column(l + extra, nr, off, n) == Column(l, nr, off, n)
  {
    var a, b := Column(l + extra, nr, off, n), Column(l, nr, off, n);
    forall i | 0 <= i < n
      ensures a[i] == b[i]
    {
      StrideStep(nr, i, n);
    }
  }

  lemma WholeRecords(len: nat, nr: nat)
    requires 2 <= nr <= 4
    ensures nr * (len / nr) <= len
    ensures len - nr * (len / nr) < nr
  {
  }

  /**
   * The star list starxy_from_dl reads from a flat list: len/nr whole records
   * (trailing values that do not fill a record are ignored), each read in the
   * order x, y, [flux], [background].
   */
  function FromFlat(l: seq<real>, withFlux: bool, withBackground: bool): (s: StarList)
    ensures s.Valid()
    ensures s.Count() == |l| / Stride(withFlux, withBackground)
    ensures s.HasFlux() == withFlux && s.HasBackground() == withBackground
  {
    var nr := Stride(withFlux, withBackground);
    var n := |l| / nr;
    WholeRecords(|l|, nr);
    StarList(Column(l, nr, 0, n), Column(l, nr, 1, n),
             if withFlux then Some(Column(l, nr, 2, n)) else None,
             if withBackground then Some(Column(l, nr, BackgroundOffset(withFlux), n)) else None)
  }

  /** Entry k of every record of the flat layout, read back as a column, is the column those entries came from. */
  lemma ColumnOfFlat(s: StarList, k: nat, c: seq<real>)
    requires s.Valid() && k < StrideOf(s) && |c| == s.Count()
    requires forall i :: 0 <= i < |c| ==> Record(s, i)[k] == c[i]
    ensures Column(ToFlat(s), StrideOf(s), k, s.Count()) == c
  {
    var col := Column(ToFlat(s), StrideOf(s), k, s.Count());
    forall i | 0 <= i < |c|
      ensures col[i] == c[i]
    {
      FlattenAt(s, s.Count(), i, k);
    }
  }

  /** Reading back what starxy_to_flat_array wrote, with the same flags, restores every column. */
  lemma RoundTrip(s: StarList)
    requires s.Valid()
    ensures FromFlat(ToFlat(s), s.HasFlux(), s.HasBackground()) == s
  {
    var nr := StrideOf(s);
    DivStride(0, nr, s.Count());
    ColumnOfFlat(s, 0, s.x);
    ColumnOfFlat(s, 1, s.y);
    if s.HasFlux() {
      ColumnOfFlat(s, 2, s.flux.value);
    }
    if s.HasBackground() {
      ColumnOfFlat(s, BackgroundOffset(s.HasFlux()), s.background.value);
    }
  }

  /** Entry k of record i of what starxy_from_dl read is entry nr*i + k of its input. */
  lemma FromFlatRecordAt(l: seq<real>, withFlux: bool, withBackground: bool, i: nat, k: nat)
    requires i < |l| / Stride(withFlux, withBackground) && k < Stride(withFlux, withBackground)
    ensures Stride(withFlux, withBackground) * i + k < |l|
    ensures Record(FromFlat(l, withFlux, withBackground), i)[k] == l[Stride(withFlux, withBackground) * i + k]
  {
    var nr := Stride(withFlux, withBackground);
    var n := |l| / nr;
    WholeRecords(|l|, nr);
    var s := FromFlat(l, withFlux, withBackground);
    var off := if k == 0 || k == 1 || (k == 2 && withFlux) then k else BackgroundOffset(withFlux);
    var col := Column(l, nr, off, n);
    assert col[i] == l[nr * i + off];
    if k == 0 {
      assert s.x == col;
    } else if k == 1 {
      assert s.y == col;
    } else if k == 2 && withFlux {
      assert s.flux.value == col;
    } else {
      assert s.background.value == col;
    }
  }

  /** Entry j of the re-laid-out list is entry j of the list that was read. */
  lemma FlatRoundTripAt(l: seq<real>, withFlux: bool, withBackground: bool, j: nat)
    requires j < Stride(withFlux, withBackground) * (|l| / Stride(withFlux, withBackground))
    ensures j < |l| && j < |ToFlat(FromFlat(l, withFlux, withBackground))|
    ensures ToFlat(FromFlat(l, withFlux, withBackground))[j] == l[j]
  {
    var nr := Stride(withFlux, withBackground);
    var n := |l| / nr;
    DivStride(j, nr, n);
    var i, k := j / nr, j % nr;
    FlattenAt(FromFlat(l, withFlux, withBackground), n, i, k);
    FromFlatRecordAt(l, withFlux, withBackground, i, k);
  }

  /**
   * Laying out what starxy_from_dl read gives back the input up to its last
   * whole record: the trailing len mod nr values are the only ones lost.
   */
  lemma FlatRoundTrip(l: seq<real>, withFlux: bool, withBackground: bool)
    ensures var nr := Stride(withFlux, withBackground);
            ToFlat(FromFlat(l, withFlux, withBackground)) == l[..nr * (|l| / nr)]
  {
    var nr := Stride(withFlux, withBackground);
    WholeRecords(|l|, nr);
    var r := ToFlat(FromFlat(l, withFlux, withBackground));
    forall j | 0 <= j < nr * (|l| / nr)
      ensures r[j] == l[j]
    {
      FlatRoundTripAt(l, withFlux, withBackground, j);
    }
  }

  /** Values past the last whole record never influence what starxy_from_dl reads. */
  lemma FromFlatIgnoresTrailing(l: seq<real>, extra: seq<real>, withFlux: bool, withBackground: bool)
    requires |l| % Stride(withFlux, withBackground) == 0
    requires |extra| < Stride(withFlux, withBackground)
    ensures FromFlat(l + extra, withFlux, withBackground) == FromFlat(l, withFlux, withBackground)
  {
    var nr := Stride(withFlux, withBackground);
    var n := |l| / nr;
    DivStride(|l|, nr, n);
    DivStride(|l| + |extra|, nr, n);
    WholeRecords(|l|, nr);
    ColumnPrefix(l, extra, nr, 0, n);
    ColumnPrefix(l, extra, nr, 1, n);
    if withFlux {
      ColumnPrefix(l, extra, nr, 2, n);
    }
    if withBackground {
      ColumnPrefix(l, extra, nr, BackgroundOffset(withFlux), n);
    }
  }
}
