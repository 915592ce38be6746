/**
 * The linear branch of the sensitivity operator: a model profile x seen
 * through a retrieval with apriori xa and averaging kernel A becomes
 * H(x) = xa + A (x - xa).
 */
module Sensitivity {

  /** A square matrix of size `n`, as a sequence of rows. */
  predicate Square(a: seq<seq<real>>, n: nat) {
    |a| == n && forall i :: 0 <= i < n ==> |a[i]| == n
  }

  /** Inner product, accumulated from the last entry down. */
  function Dot(a: seq<real>, b: seq<real>): real
    requires |a| == |b|
  {
    if |a| == 0 then 0.0 else Dot(a[..|a| - 1], b[..|b| - 1]) + a[|a| - 1] * b[|b| - 1]
  }

  function Sub(x: seq<real>, y: seq<real>): (r: seq<real>)
    requires |x| == |y|
    ensures |r| == |x|
    ensures forall i :: 0 <= i < |x| ==> r[i] == x[i] - y[i]
  {
    seq(|x|, i requires 0 <= i < |x| => x[i] - y[i])
  }

  /** numpy's `A @ x` for a matrix whose rows all have the length of `x`. */
  function MatVec(a: seq<seq<real>>, x: seq<real>): (r: seq<real>)
    requires forall i :: 0 <= i < |a| ==> |a[i]| == |x|
    ensures |r| == |a|
    ensures forall i :: 0 <= i < |a| ==> r[i] == Dot(a[i], x)
  {
    seq(|a|, i requires 0 <= i < |a| => Dot(a[i], x))
  }

  /** `apriori + (AK @ (model - apriori))`, for a square kernel of the profile's size. */
  function LinearSensitivity(ak: seq<seq<real>>, apriori: seq<real>, model: seq<real>): (h: seq<real>)
    requires Square(ak, |model|) && |apriori| == |model|
    ensures |h| == |model|
  {
    var d := MatVec(ak, Sub(model, apriori));
    seq(|model|, i requires 0 <= i < |model| => apriori[i] + d[i])
  }

  /** Row `i` of the identity of size `n`. */
  function UnitRow(n: nat, i: nat): (r: seq<real>)
    ensures |r| == n
  {
    seq(n, j => if j == i then 1.0 else 0.0)
  }

  function Identity(n: nat): (a: seq<seq<real>>)
    ensures Square(a, n)
  {
    seq(n, (i: int) requires 0 <= i < n => UnitRow(n, i))
  }

  function Zero(n: nat): (a: seq<seq<real>>)
    ensures Square(a, n)
  {
    seq(n, i => seq(n, j => 0.0))
  }

  /** The unit row picks out one entry. */
  lemma {:induction false} DotUnitRow(x: seq<real>, i: nat)
    ensures Dot(UnitRow(|x|, i), x) == if i < |x| then x[i] else 0.0
    decreases |x|
  {
    if |x| > 0 {
      var n := |x|;
      assert UnitRow(n, i)[..n - 1] == UnitRow(n - 1, i);
      DotUnitRow(x[..n - 1], i);
    }
  }

  lemma {:induction false} DotZeroLeft(a: seq<real>, x: seq<real>)
    requires |a| == |x|
    requires forall j :: 0 <= j < |a| ==> a[j] == 0.0
    ensures Dot(a, x) == 0.0
    decreases |a|
  {
    if |a| > 0 {
      DotZeroLeft(a[..|a| - 1], x[..|x| - 1]);
    }
  }

  lemma {:induction false} DotZeroRight(a: seq<real>, x: seq<real>)
    requires |a| == |x|
    requires forall j :: 0 <= j < |x| ==> x[j] == 0.0
    ensures Dot(a, x) == 0.0
    decreases |a|
  {
    if |a| > 0 {
      DotZeroRight(a[..|a| - 1], x[..|x| - 1]);
    }
  }

  /** The inner product is linear in its second argument. */
  lemma {:induction false} DotSub(a: seq<real>, x: seq<real>, y: seq<real>)
    requires |a| == |x| == |y|
    ensures Dot(a, Sub(x, y)) == Dot(a, x) - Dot(a, y)
    decreases |a|
  {
    if |a| > 0 {
      var n := |a|;
      assert Sub(x, y)[..n - 1] == Sub(x[..n - 1], y[..n - 1]);
      DotSub(a[..n - 1], x[..n - 1], y[..n - 1]);
    }
  }

  /** An identity kernel passes the model profile through unchanged. */
  lemma IdentityKernel(apriori: seq<real>, model: seq<real>)
    requires |apriori| == |model|
    ensures LinearSensitivity(Identity(|model|), apriori, model) == model
  {
    var n := |model|;
    var h := LinearSensitivity(Identity(n), apriori, model);
    var d := Sub(model, apriori);
    forall i | 0 <= i < n
      ensures h[i] == model[i]
    {
      DotUnitRow(d, i);
    }
  }

  /** A zero kernel returns the apriori: the retrieval has no sensitivity. */
  lemma ZeroKernel(apriori: seq<real>, model: seq<real>)
    requires |apriori| == |model|
    ensures LinearSensitivity(Zero(|model|), apriori, model) == apriori
  {
    var n := |model|;
    var h := LinearSensitivity(Zero(n), apriori, model);
    forall i | 0 <= i < n
      ensures h[i] == apriori[i]
    {
      DotZeroLeft(Zero(n)[i], Sub(model, apriori));
    }
  }

  /** A model profile equal to the apriori is returned as it is, whatever the kernel. */
  lemma AprioriFixed(ak: seq<seq<real>>, apriori: seq<real>)
    requires Square(ak, |apriori|)
    ensures LinearSensitivity(ak, apriori, apriori) == apriori
  {
    var n := |apriori|;
    var h := LinearSensitivity(ak, apriori, apriori);
    forall i | 0 <= i < n
      ensures h[i] == apriori[i]
    {
      DotZeroRight(ak[i], Sub(apriori, apriori));
    }
  }

  /** The operator is affine: two model profiles differ, after it, by the kernel applied to their difference. */
  lemma Affine(ak: seq<seq<real>>, apriori: seq<real>, x: seq<real>, y: seq<real>)
    requires Square(ak, |x|) && |apriori| == |x| == |y|
    ensures Sub(LinearSensitivity(ak, apriori, x), LinearSensitivity(ak, apriori, y)) == MatVec(ak, Sub(x, y))
  {
    var n := |x|;
    var hx := LinearSensitivity(ak, apriori, x);
    var hy := LinearSensitivity(ak, apriori, y);
    forall i | 0 <= i < n
      ensures hx[i] - hy[i] == Dot(ak[i], Sub(x, y))
    {
      DotSub(ak[i], x, apriori);
      DotSub(ak[i], y, apriori);
      DotSub(ak[i], x, y);
    }
  }
}
