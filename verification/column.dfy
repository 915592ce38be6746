/**
 * The ozone column of a profile in Dobson units (`convert_ppm_to_du`): the
 * profile is evaluated at the midpoint of each pressure layer by linear
 * interpolation, and each layer contributes its midpoint mixing ratio times
 * the mass of air between its bounding pressures.
 */
module Column {
  import opened Seqs

  // ---------------------------------------------------------------------
  // numpy's `interp` on increasing sample points.
  // ---------------------------------------------------------------------

  /**
   * The piecewise-linear interpolant through (xp[k], fp[k]) at `x`, held at
   * the end values outside the sample range.
   */
  function Interp(x: real, xp: seq<real>, fp: seq<real>): real
    requires |xp| == |fp| >= 1
    requires StrictlyIncreasing(xp)
    decreases |xp|
  {
    if |xp| == 1 || x <= xp[0] then fp[0]
    else if x < xp[1] then fp[0] + (x - xp[0]) * (fp[1] - fp[0]) / (xp[1] - xp[0])
    else Interp(x, xp[1..], fp[1..])
  }

  /** The interpolant passes through every sample point. */
  lemma {:induction false} InterpAtSample(xp: seq<real>, fp: seq<real>, k: nat)
    requires |xp| == |fp| >= 1 && StrictlyIncreasing(xp)
    requires k < |xp|
    ensures Interp(xp[k], xp, fp) == fp[k]
    decreases k
  {
    if k > 0 {
      InterpAtSample(xp[1..], fp[1..], k - 1);
    }
  }

  /** Halfway between two neighbouring sample points the interpolant is the mean of their values. */
  lemma {:induction false} InterpHalfway(xp: seq<real>, fp: seq<real>, k: nat)
    requires |xp| == |fp| >= 1 && StrictlyIncreasing(xp)
    requires k + 1 < |xp|
    ensures Interp((xp[k] + xp[k + 1]) / 2.0, xp, fp) == (fp[k] + fp[k + 1]) / 2.0
    decreases k
  {
    var x := (xp[k] + xp[k + 1]) / 2.0;
    if k == 0 {
      var d := xp[1] - xp[0];
      assert x - xp[0] == d / 2.0;
      assert (d / 2.0) * (fp[1] - fp[0]) / d == (fp[1] - fp[0]) / 2.0;
    } else {
      assert x > xp[0] && x >= xp[1];
      InterpHalfway(xp[1..], fp[1..], k - 1);
    }
  }

  // ---------------------------------------------------------------------
  // Layers.
  // ---------------------------------------------------------------------

  /** The midpoint of each pair of neighbouring levels. */
  function Midpoints(p: seq<real>): (m: seq<real>)
    requires |p| >= 1
    ensures |m| == |p| - 1
    ensures forall i {:trigger m[i]} :: 0 <= i < |p| - 1 ==> m[i] == (p[i] + p[i + 1]) / 2.0
  {
    seq(|p| - 1, i requires 0 <= i < |p| - 1 => (p[i] + p[i + 1]) / 2.0)
  }

  /** Between two different levels, their midpoint lies strictly between them. */
  lemma MidpointsBetween(p: seq<real>, i: nat)
    requires StrictlyDecreasing(p) && i + 1 < |p|
    ensures p[i + 1] < Midpoints(p)[i] < p[i]
  {
  }

  /**
   * The mixing ratio at each midpoint: the midpoints, pressures and ratios
   * are flipped so that pressure increases, interpolated, and flipped back.
   */
  function MidpointVmrs(p: seq<real>, v: seq<real>): (mv: seq<real>)
    requires |p| == |v| >= 1 && StrictlyDecreasing(p)
    ensures |mv| == |p| - 1
  {
    ReverseDecreasing(p);
    var xs := Reverse(Midpoints(p));
    Reverse(seq(|xs|, k requires 0 <= k < |xs| => Interp(xs[k], Reverse(p), Reverse(v))))
  }

  /** For pressure decreasing upwards, the value at each midpoint is the mean of the two bounding levels. */
  lemma MidpointVmrIsMean(p: seq<real>, v: seq<real>, j: nat)
    requires |p| == |v| >= 1 && StrictlyDecreasing(p)
    requires j + 1 < |p|
    ensures MidpointVmrs(p, v)[j] == (v[j] + v[j + 1]) / 2.0
  {
    var n := |p|;
    var xp, fp := Reverse(p), Reverse(v);
    ReverseDecreasing(p);
    var k := n - 2 - j;
    assert xp[k] == p[j + 1] && xp[k + 1] == p[j];
    assert fp[k] == v[j + 1] && fp[k + 1] == v[j];
    ReversedMidpoint(p, k);
    MidpointVmrAt(p, v, j);
    InterpHalfway(xp, fp, k);
  }

  /** Entry `j` of the midpoint ratios is the interpolant at entry `n - 2 - j` of the flipped midpoints. */
  lemma MidpointVmrAt(p: seq<real>, v: seq<real>, j: nat)
    requires |p| == |v| >= 1 && StrictlyDecreasing(p)
    requires j + 1 < |p|
    ensures StrictlyIncreasing(Reverse(p))
    ensures MidpointVmrs(p, v)[j] == Interp(Reverse(Midpoints(p))[|p| - 2 - j], Reverse(p), Reverse(v))
  {
    ReverseDecreasing(p);
    var xs := Reverse(Midpoints(p));
    var inner := seq(|xs|, i requires 0 <= i < |xs| => Interp(xs[i], Reverse(p), Reverse(v)));
    assert MidpointVmrs(p, v) == Reverse(inner);
  }

  /** Flipped, the midpoints are the midpoints of the flipped levels. */
  lemma ReversedMidpoint(p: seq<real>, k: nat)
    requires k + 1 < |p|
    ensures Reverse(Midpoints(p))[k] == (Reverse(p)[k] + Reverse(p)[k + 1]) / 2.0
  {
    var n := |p|;
    assert Reverse(Midpoints(p))[k] == Midpoints(p)[n - 2 - k];
    assert Reverse(p)[k] == p[n - 1 - k] && Reverse(p)[k + 1] == p[n - 2 - k];
  }

  /** Ozone of one layer in DU, from its midpoint ratio in ppb and its pressure thickness in hPa. */
  function LayerDu(vmid: real, dp: real): real {
    (vmid / 1000.0 * 0.000001)
      * ((dp / 9.8) * 100.0 * 0.0001 * (1.0 / 0.02896) * 602200000000000000000000.0 * (1.0 / 26867000000000000.0))
  }

  /** DU per ppb per hPa: the constant that the unit conversions of a layer multiply into. */
  const DuPerPpbHpa: real := 0.000000001 * (100.0 * 0.0001 / 9.8 / 0.02896 * 602200000000000000000000.0 / 26867000000000000.0)

  /** A layer is its ratio times its thickness times one constant. */
  lemma LayerDuProduct(vmid: real, dp: real)
    ensures LayerDu(vmid, dp) == vmid * dp * DuPerPpbHpa
    ensures DuPerPpbHpa > 0.0
  {
  }

  /** Sum of the first `n` layers. */
  function LayerSum(p: seq<real>, mv: seq<real>, n: nat): real
    requires n < |p| && |mv| == |p| - 1
  {
    if n == 0 then 0.0 else LayerSum(p, mv, n - 1) + LayerDu(mv[n - 1], p[n - 1] - p[n])
  }

  /** Total ozone column in DU over all layers of the profile. */
  function ColumnDu(p: seq<real>, v: seq<real>): real
    requires |p| == |v| >= 1 && StrictlyDecreasing(p)
  {
    LayerSum(p, MidpointVmrs(p, v), |p| - 1)
  }

  // ---------------------------------------------------------------------
  // The trapezoid rule as a reference.
  // ---------------------------------------------------------------------

  /** The trapezoid rule over the first `n` layers, mean of the bounding ratios times thickness. */
  function Trapezoid(p: seq<real>, v: seq<real>, n: nat): real
    requires n < |p| == |v|
  {
    if n == 0 then 0.0
    else Trapezoid(p, v, n - 1) + DuPerPpbHpa * ((v[n - 1] + v[n]) / 2.0) * (p[n - 1] - p[n])
  }

  /** Layers whose ratios are the means of their bounding levels sum as the trapezoid rule does. */
  lemma {:induction false} LayerSumTrapezoid(p: seq<real>, mv: seq<real>, v: seq<real>, n: nat)
    requires |p| == |v| >= 1 && |mv| == |p| - 1 && n < |p|
    requires forall j :: 0 <= j < |mv| ==> mv[j] == (v[j] + v[j + 1]) / 2.0
    ensures LayerSum(p, mv, n) == Trapezoid(p, v, n)
  {
    if n > 0 {
      LayerSumTrapezoid(p, mv, v, n - 1);
      var m, dp := mv[n - 1], p[n - 1] - p[n];
      LayerDuProduct(m, dp);
      assert m * dp * DuPerPpbHpa == DuPerPpbHpa * m * dp;
    }
  }

  /** The column is the trapezoid rule applied to the ratio profile over pressure. */
  lemma ColumnIsTrapezoid(p: seq<real>, v: seq<real>)
    requires |p| == |v| >= 1 && StrictlyDecreasing(p)
    ensures ColumnDu(p, v) == Trapezoid(p, v, |p| - 1)
  {
    var mv := MidpointVmrs(p, v);
    forall j | 0 <= j < |mv|
      ensures mv[j] == (v[j] + v[j + 1]) / 2.0
    {
      MidpointVmrIsMean(p, v, j);
    }
    LayerSumTrapezoid(p, mv, v, |p| - 1);
  }

  /** A single level has no layer and no column. */
  lemma ColumnSingleLevel(p: seq<real>, v: seq<real>)
    requires |p| == |v| == 1
    ensures ColumnDu(p, v) == 0.0
  {
  }

  lemma {:induction false} TrapezoidZero(p: seq<real>, v: seq<real>, n: nat)
    requires n < |p| == |v|
    requires forall i :: 0 <= i < |v| ==> v[i] == 0.0
    ensures Trapezoid(p, v, n) == 0.0
  {
    if n > 0 {
      TrapezoidZero(p, v, n - 1);
    }
  }

  /** No ozone anywhere gives no column. */
  lemma ColumnZero(p: seq<real>, v: seq<real>)
    requires |p| == |v| >= 1 && StrictlyDecreasing(p)
    requires forall i :: 0 <= i < |v| ==> v[i] == 0.0
    ensures ColumnDu(p, v) == 0.0
  {
    ColumnIsTrapezoid(p, v);
    TrapezoidZero(p, v, |p| - 1);
  }

  lemma {:induction false} TrapezoidConstant(p: seq<real>, v: seq<real>, c: real, n: nat)
    requires n < |p| == |v|
    requires forall i :: 0 <= i < |v| ==> v[i] == c
    ensures Trapezoid(p, v, n) == DuPerPpbHpa * c * (p[0] - p[n])
  {
    if n > 0 {
      TrapezoidConstant(p, v, c, n - 1);
      var k := DuPerPpbHpa * c;
      assert (v[n - 1] + v[n]) / 2.0 == c;
      assert k * (p[0] - p[n - 1]) + k * (p[n - 1] - p[n]) == k * (p[0] - p[n]);
    }
  }

  /** A well-mixed profile gives its ratio times the whole pressure thickness: the layer terms telescope. */
  lemma ColumnConstant(p: seq<real>, v: seq<real>, c: real)
    requires |p| == |v| >= 1 && StrictlyDecreasing(p)
    requires forall i :: 0 <= i < |v| ==> v[i] == c
    ensures ColumnDu(p, v) == LayerDu(c, p[0] - p[|p| - 1])
  {
    var d := p[0] - p[|p| - 1];
    ColumnIsTrapezoid(p, v);
    TrapezoidConstant(p, v, c, |p| - 1);
    LayerDuProduct(c, d);
    assert DuPerPpbHpa * c * d == c * d * DuPerPpbHpa;
  }

  lemma {:induction false} TrapezoidNonnegative(p: seq<real>, v: seq<real>, n: nat)
    requires n < |p| == |v| && StrictlyDecreasing(p)
    requires forall i :: 0 <= i < |v| ==> v[i] >= 0.0
    ensures Trapezoid(p, v, n) >= 0.0
  {
    if n > 0 {
      TrapezoidNonnegative(p, v, n - 1);
      var m := (v[n - 1] + v[n]) / 2.0;
      var dp := p[n - 1] - p[n];
      assert m >= 0.0 && dp > 0.0;
      assert m * dp >= 0.0;
      assert DuPerPpbHpa * m * dp >= 0.0;
    }
  }

  /** No negative ratio anywhere gives a non-negative column. */
  lemma ColumnNonnegative(p: seq<real>, v: seq<real>)
    requires |p| == |v| >= 1 && StrictlyDecreasing(p)
    requires forall i :: 0 <= i < |v| ==> v[i] >= 0.0
    ensures ColumnDu(p, v) >= 0.0
  {
    ColumnIsTrapezoid(p, v);
    TrapezoidNonnegative(p, v, |p| - 1);
  }
}
