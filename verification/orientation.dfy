/**
 * Orientation of the two profiles of a candidate pair before they are
 * interpolated: the cleaned sonde profile is turned top-of-atmosphere first
 * and its non-positive pressures dropped, its ozone partial pressure becomes
 * a volume mixing ratio, and the satellite sounding is turned the same way
 * up, kernel included.
 */
module Orientation {
  import opened Wrappers
  import opened Seqs
  import opened Records

  // ---------------------------------------------------------------------
  // The positivity filter: numpy's `where(p > 0)` and fancy indexing.
  // ---------------------------------------------------------------------

  /** Positions `k < n` with `p[k] > 0`, in increasing order. */
  function PositiveUpTo(p: seq<real>, n: nat): seq<nat>
    requires n <= |p|
  {
    if n == 0 then []
    else PositiveUpTo(p, n - 1) + (if p[n - 1] > 0.0 then [n - 1] else [])
  }

  /** Every position in `idx` is below `n` and holds a positive value of `p`. */
  predicate PositivePositions(p: seq<real>, n: nat, idx: seq<nat>) {
    forall k :: 0 <= k < |idx| ==> idx[k] < n && idx[k] < |p| && p[idx[k]] > 0.0
  }

  predicate IncreasingPositions(idx: seq<nat>) {
    forall k, l :: 0 <= k < l < |idx| ==> idx[k] < idx[l]
  }

  /** Every position below `n` that holds a positive value of `p` is in `idx`. */
  predicate AllPositivesKept(p: seq<real>, n: nat, idx: seq<nat>)
    requires n <= |p|
  {
    forall m :: 0 <= m < n && p[m] > 0.0 ==> m in idx
  }

  lemma {:induction false} PositiveUpToSound(p: seq<real>, n: nat)
    requires n <= |p|
    ensures PositivePositions(p, n, PositiveUpTo(p, n))
  {
    if n > 0 {
      PositiveUpToSound(p, n - 1);
      var prev := PositiveUpTo(p, n - 1);
      if p[n - 1] > 0.0 {
        var idx := prev + [n - 1];
        assert PositiveUpTo(p, n) == idx;
        assert forall k :: 0 <= k < |prev| ==> idx[k] == prev[k];
      }
    }
  }

  lemma {:induction false} PositiveUpToIncreasing(p: seq<real>, n: nat)
    requires n <= |p|
    ensures IncreasingPositions(PositiveUpTo(p, n))
  {
    if n > 0 {
      PositiveUpToSound(p, n - 1);
      PositiveUpToIncreasing(p, n - 1);
      var prev := PositiveUpTo(p, n - 1);
      if p[n - 1] > 0.0 {
        var idx := prev + [n - 1];
        assert PositiveUpTo(p, n) == idx;
        assert forall k :: 0 <= k < |prev| ==> idx[k] == prev[k];
      }
    }
  }

  lemma {:induction false} PositiveUpToComplete(p: seq<real>, n: nat)
    requires n <= |p|
    ensures AllPositivesKept(p, n, PositiveUpTo(p, n))
  {
    if n > 0 {
      PositiveUpToComplete(p, n - 1);
      var prev := PositiveUpTo(p, n - 1);
      var idx := PositiveUpTo(p, n);
      assert forall m :: m in prev ==> m in idx;
      if p[n - 1] > 0.0 {
        assert idx == prev + [n - 1];
        assert idx[|prev|] == n - 1;
      }
    }
  }

  /** `where(p > 0)`: exactly the positions holding a positive value, in order. */
  function PositiveIndices(p: seq<real>): (idx: seq<nat>)
    ensures PositivePositions(p, |p|, idx)
    ensures IncreasingPositions(idx)
    ensures AllPositivesKept(p, |p|, idx)
  {
    PositiveUpToSound(p, |p|);
    PositiveUpToIncreasing(p, |p|);
    PositiveUpToComplete(p, |p|);
    PositiveUpTo(p, |p|)
  }

  /** Fancy indexing `s[idx]`, for positions known to be in range. */
  function Pick<T>(s: seq<T>, idx: seq<nat>): (r: seq<T>)
    requires forall k :: 0 <= k < |idx| ==> idx[k] < |s|
    ensures |r| == |idx|
    ensures forall k :: 0 <= k < |idx| ==> r[k] == s[idx[k]]
  {
    seq(|idx|, k requires 0 <= k < |idx| => s[idx[k]])
  }

  /** The positive entries of `s`, in order: a reference for the index-based filter. */
  function FilterPositive(s: seq<real>): seq<real> {
    if |s| == 0 then []
    else FilterPositive(s[..|s| - 1]) + (if s[|s| - 1] > 0.0 then [s[|s| - 1]] else [])
  }

  /** Picking the positions `where` finds gives the positive entries, in order. */
  lemma {:induction false} PickPositiveUpTo(p: seq<real>, n: nat)
    requires n <= |p|
    ensures PositivePositions(p, n, PositiveUpTo(p, n))
    ensures Pick(p, PositiveUpTo(p, n)) == FilterPositive(p[..n])
  {
    PositiveUpToSound(p, n);
    if n > 0 {
      PickPositiveUpTo(p, n - 1);
      assert p[..n][..n - 1] == p[..n - 1];
      var prev := PositiveUpTo(p, n - 1);
      if p[n - 1] > 0.0 {
        assert PositiveUpTo(p, n) == prev + [n - 1];
        assert Pick(p, prev + [n - 1]) == Pick(p, prev) + [p[n - 1]];
      } else {
        assert PositiveUpTo(p, n) == prev;
      }
    }
  }

  lemma PickPositive(p: seq<real>)
    ensures Pick(p, PositiveIndices(p)) == FilterPositive(p)
  {
    PickPositiveUpTo(p, |p|);
    assert p[..|p|] == p;
  }

  // ---------------------------------------------------------------------
  // Sonde profile.
  // ---------------------------------------------------------------------

  /**
   * `s` turned top-of-atmosphere first, judged by the first two pressures of
   * `p`: reversed when `p[0] > p[1]`, unchanged otherwise.
   */
  function Oriented<T>(p: seq<real>, s: seq<T>): (r: seq<T>)
    requires |p| >= 2
    ensures |r| == |s|
    ensures p[0] > p[1] ==> r == Reverse(s)
    ensures p[0] <= p[1] ==> r == s
  {
    if p[0] > p[1] then Reverse(s) else s
  }

  /**
   * Orientation and positivity filter of the cleaned sonde profile. The
   * pressure list decides the orientation, and the ozone list is reversed
   * with it whatever its length; the kept positions index both. Fewer than
   * two pressures, or a kept position past the end of the ozone list, end
   * the run.
   */
  function NormaliseSonde(p: seq<real>, v: seq<real>): (r: Result<SondeProfile, Fatal>)
    ensures |p| < 2 <==> r == Failure(TooFewSondeLevels)
    ensures r.Failure? ==> r.error == TooFewSondeLevels || r.error == SondeOzoneIndex
    ensures |p| >= 2 && |v| >= |p| ==> r.Success?
    ensures r.Success? ==> |r.value.pressure| == |r.value.ozone|
    ensures r.Success? ==> forall k :: 0 <= k < |r.value.pressure| ==> r.value.pressure[k] > 0.0
  {
    if |p| < 2 then Failure(TooFewSondeLevels)
    else
      var p' := Oriented(p, p);
      var v' := Oriented(p, v);
      var idx := PositiveIndices(p');
      if forall k :: 0 <= k < |idx| ==> idx[k] < |v'| then
        Success(SondeProfile(Pick(p', idx), Pick(v', idx)))
      else
        Failure(SondeOzoneIndex)
  }

  /**
   * The kept pressures are exactly the positive entries of the oriented
   * pressure list, in order.
   */
  lemma NormaliseFilters(p: seq<real>, v: seq<real>)
    requires NormaliseSonde(p, v).Success?
    ensures NormaliseSonde(p, v).value.pressure == FilterPositive(Oriented(p, p))
  {
    PickPositive(Oriented(p, p));
  }

  /** Picking increasing positions of a strictly increasing sequence keeps it strictly increasing. */
  lemma PickIncreasing(s: seq<real>, idx: seq<nat>)
    requires forall k :: 0 <= k < |idx| ==> idx[k] < |s|
    requires IncreasingPositions(idx)
    requires StrictlyIncreasing(s)
    ensures StrictlyIncreasing(Pick(s, idx))
  {
    var q := Pick(s, idx);
    forall k, l | 0 <= k < l < |q|
      ensures q[k] < q[l]
    {
      assert idx[k] < idx[l];
    }
  }

  /** A profile recorded surface first in strictly decreasing pressure comes out strictly increasing. */
  lemma NormaliseAscending(p: seq<real>, v: seq<real>)
    requires |p| >= 2 && StrictlyDecreasing(p)
    requires NormaliseSonde(p, v).Success?
    ensures StrictlyIncreasing(NormaliseSonde(p, v).value.pressure)
  {
    var p' := Oriented(p, p);
    ReverseDecreasing(p);
    var idx := PositiveIndices(p');
    PickIncreasing(p', idx);
  }

  /**
   * A kept level built from pressure line `m`: the pressure is `p[m]`, which
   * is positive, and the ozone value is `v[m]` when the profile is kept as
   * recorded, or `v[m + d]` when it is reversed, `d` being how much longer
   * the ozone list is than the pressure list. The reversal counts positions
   * from the end of each list separately.
   */
  predicate KeptFrom(p: seq<real>, v: seq<real>, pressure: real, ozone: real, m: nat)
    requires |p| >= 2
  {
    && m < |p|
    && p[m] > 0.0
    && pressure == p[m]
    && if p[0] > p[1] then
         0 <= m + |v| - |p| < |v| && ozone == v[m + |v| - |p|]
       else
         m < |v| && ozone == v[m]
  }

  /**
   * `r` was built from the pressure lines `ms`, one per level: level `k`
   * comes from line `ms[k]` as `KeptFrom` says, the lines are taken from the
   * top of the atmosphere down (decreasing line numbers for a profile
   * recorded surface first, increasing otherwise), and every line with a
   * positive pressure is among them. These conditions leave exactly one
   * choice of `ms`, so they fix `r` completely.
   */
  predicate LinesOf(p: seq<real>, v: seq<real>, r: SondeProfile, ms: seq<nat>)
    requires |p| >= 2
  {
    && |ms| == |r.pressure|
    && |ms| == |r.ozone|
    && (forall k :: 0 <= k < |ms| ==> KeptFrom(p, v, r.pressure[k], r.ozone[k], ms[k]))
    && Monotone(ms, p[0] > p[1])
    && (forall m :: 0 <= m < |p| && p[m] > 0.0 ==> m in ms)
  }

  /** The pressure line that position `i` of the oriented lists comes from. */
  function KeptLine(p: seq<real>, i: nat): (m: nat)
    requires |p| >= 2 && i < |p|
    ensures m < |p|
    ensures p[0] > p[1] ==> m + i == |p| - 1
    ensures p[0] <= p[1] ==> m == i
  {
    if p[0] > p[1] then |p| - 1 - i else i
  }

  /** `ms` runs strictly down when `down` holds, strictly up otherwise. */
  predicate Monotone(ms: seq<nat>, down: bool) {
    forall k, l :: 0 <= k < l < |ms| ==> if down then ms[k] > ms[l] else ms[k] < ms[l]
  }

  /** Two strictly monotone sequences running the same way with the same members are equal. */
  lemma {:induction false} SameMembersSame(a: seq<nat>, b: seq<nat>, down: bool)
    requires Monotone(a, down) && Monotone(b, down)
    requires forall x :: x in a <==> x in b
    ensures a == b
    decreases |a|
  {
    NonEmptyWith(a, b);
    NonEmptyWith(b, a);
    if |a| > 0 {
      assert a[0] in b;
      assert b[0] in a;
      var i :| 0 <= i < |a| && a[i] == b[0];
      var j :| 0 <= j < |b| && b[j] == a[0];
      if i != 0 && j != 0 {
        assert false;
      }
      forall x
        ensures x in a[1..] <==> x in b[1..]
      {
        MonotoneTail(a, down, x);
        MonotoneTail(b, down, x);
      }
      SameMembersSame(a[1..], b[1..], down);
      assert a == [a[0]] + a[1..];
      assert b == [b[0]] + b[1..];
    }
  }

  /** A sequence with the same members as a non-empty one is non-empty. */
  lemma NonEmptyWith(a: seq<nat>, b: seq<nat>)
    requires forall x :: x in a <==> x in b
    ensures |a| > 0 ==> |b| > 0
  {
    if |a| > 0 {
      assert a[0] in b;
    }
  }

  /** The tail of a strictly monotone sequence holds all its members but the head. */
  lemma MonotoneTail(a: seq<nat>, down: bool, x: nat)
    requires Monotone(a, down) && |a| > 0
    ensures Monotone(a[1..], down)
    ensures x in a[1..] <==> x in a && x != a[0]
  {
    if x in a && x != a[0] {
      var i :| 0 <= i < |a| && a[i] == x;
      assert a[1..][i - 1] == x;
    }
  }

  /**
   * `LinesOf` fixes the profile: two profiles built from the same lists as
   * `LinesOf` says are the same profile, with the same lines.
   */
  lemma LinesOfUnique(p: seq<real>, v: seq<real>, r1: SondeProfile, ms1: seq<nat>, r2: SondeProfile, ms2: seq<nat>)
    requires |p| >= 2
    requires LinesOf(p, v, r1, ms1) && LinesOf(p, v, r2, ms2)
    ensures ms1 == ms2 && r1 == r2
  {
    forall x
      ensures x in ms1 <==> x in ms2
    {
      if x in ms1 {
        var k :| 0 <= k < |ms1| && ms1[k] == x;
        assert KeptFrom(p, v, r1.pressure[k], r1.ozone[k], ms1[k]);
      }
      if x in ms2 {
        var k :| 0 <= k < |ms2| && ms2[k] == x;
        assert KeptFrom(p, v, r2.pressure[k], r2.ozone[k], ms2[k]);
      }
    }
    SameMembersSame(ms1, ms2, p[0] > p[1]);
    forall k | 0 <= k < |ms1|
      ensures r1.pressure[k] == r2.pressure[k] && r1.ozone[k] == r2.ozone[k]
    {
      assert KeptFrom(p, v, r1.pressure[k], r1.ozone[k], ms1[k]);
      assert KeptFrom(p, v, r2.pressure[k], r2.ozone[k], ms1[k]);
    }
    assert r1.pressure == r2.pressure;
    assert r1.ozone == r2.ozone;
  }

  /** The pressure lines that the oriented positions `idx` come from. */
  function KeptLines(p: seq<real>, idx: seq<nat>): (ms: seq<nat>)
    requires |p| >= 2
    requires forall k :: 0 <= k < |idx| ==> idx[k] < |p|
    ensures |ms| == |idx|
    ensures forall k :: 0 <= k < |idx| ==> ms[k] == KeptLine(p, idx[k])
  {
    seq(|idx|, k requires 0 <= k < |idx| => KeptLine(p, idx[k]))
  }

  /** The normalised profile is built from the positive pressure lines, in orientation order. */
  lemma NormaliseOzone(p: seq<real>, v: seq<real>)
    ensures NormaliseSonde(p, v).Success? ==>
      && |p| >= 2
      && exists ms :: LinesOf(p, v, NormaliseSonde(p, v).value, ms)
  {
    if NormaliseSonde(p, v).Success? {
      var idx := PositiveIndices(Oriented(p, p));
      assert forall k :: 0 <= k < |idx| ==> idx[k] < |Oriented(p, v)|;
      PickedLines(p, v, idx);
    }
  }

  /** `LinesOf` for the profile picked at the positive positions of the oriented lists. */
  lemma PickedLines(p: seq<real>, v: seq<real>, idx: seq<nat>)
    requires |p| >= 2
    requires idx == PositiveIndices(Oriented(p, p))
    requires forall k :: 0 <= k < |idx| ==> idx[k] < |v|
    ensures LinesOf(p, v, SondeProfile(Pick(Oriented(p, p), idx), Pick(Oriented(p, v), idx)), KeptLines(p, idx))
  {
    var r := SondeProfile(Pick(Oriented(p, p), idx), Pick(Oriented(p, v), idx));
    var ms := KeptLines(p, idx);
    forall k | 0 <= k < |ms|
      ensures KeptFrom(p, v, r.pressure[k], r.ozone[k], ms[k])
    {
      PickedLineAt(p, v, idx, k);
    }
    forall k, l | 0 <= k < l < |ms|
      ensures if p[0] > p[1] then ms[k] > ms[l] else ms[k] < ms[l]
    {
      assert idx[k] < idx[l];
    }
    forall m | 0 <= m < |p| && p[m] > 0.0
      ensures m in ms
    {
      PositiveLineKept(p, m);
      var k :| 0 <= k < |idx| && idx[k] == KeptLine(p, m);
      assert ms[k] == m;
    }
  }

  /** Level `k` of the picked profile comes from line `KeptLine(p, idx[k])`. */
  lemma PickedLineAt(p: seq<real>, v: seq<real>, idx: seq<nat>, k: nat)
    requires |p| >= 2
    requires PositivePositions(Oriented(p, p), |p|, idx)
    requires forall k :: 0 <= k < |idx| ==> idx[k] < |v|
    requires k < |idx|
    ensures KeptFrom(p, v, Pick(Oriented(p, p), idx)[k], Pick(Oriented(p, v), idx)[k], KeptLine(p, idx[k]))
  {
    var i := idx[k];
    var m := KeptLine(p, i);
    assert Pick(Oriented(p, p), idx)[k] == Oriented(p, p)[i] > 0.0;
    assert Pick(Oriented(p, v), idx)[k] == Oriented(p, v)[i];
    if p[0] > p[1] {
      assert Oriented(p, p)[i] == p[m];
      assert Oriented(p, v)[i] == v[m + |v| - |p|];
    } else {
      assert Oriented(p, p)[i] == p[m];
      assert Oriented(p, v)[i] == v[m];
    }
  }

  /** A line with a positive pressure sits at a kept position of the oriented list. */
  lemma PositiveLineKept(p: seq<real>, m: nat)
    requires |p| >= 2 && m < |p| && p[m] > 0.0
    ensures KeptLine(p, m) < |p|
    ensures KeptLine(p, m) in PositiveIndices(Oriented(p, p))
    ensures KeptLine(p, KeptLine(p, m)) == m
  {
    var i := KeptLine(p, m);
    assert Oriented(p, p)[i] == p[m];
  }

  /**
   * When the two lists have the same length, each kept pressure stays with
   * the ozone value read from the same line.
   */
  lemma NormaliseKeepsPairs(p: seq<real>, v: seq<real>)
    requires |p| >= 2 && |v| == |p|
    ensures exists ms :: SameLines(p, v, NormaliseSonde(p, v).value, ms)
  {
    NormaliseOzone(p, v);
    var r := NormaliseSonde(p, v).value;
    var ms :| LinesOf(p, v, r, ms);
    SameLengthLines(p, v, r, ms);
    assert SameLines(p, v, r, ms);
  }

  /**
   * `r` was built from the pressure lines `ms` as `LinesOf` says, and level
   * `k` holds both the pressure and the ozone value of line `ms[k]`.
   */
  predicate SameLines(p: seq<real>, v: seq<real>, r: SondeProfile, ms: seq<nat>)
    requires |p| >= 2
  {
    && LinesOf(p, v, r, ms)
    && forall k :: 0 <= k < |ms| ==> ms[k] < |p| && ms[k] < |v| && r.pressure[k] == p[ms[k]] && r.ozone[k] == v[ms[k]]
  }

  /** With lists of one length, the ozone value of each kept line is read from that line. */
  lemma SameLengthLines(p: seq<real>, v: seq<real>, r: SondeProfile, ms: seq<nat>)
    requires |p| >= 2 && |v| == |p|
    requires LinesOf(p, v, r, ms)
    ensures SameLines(p, v, r, ms)
  {
    forall k | 0 <= k < |ms|
      ensures ms[k] < |p| && ms[k] < |v| && r.pressure[k] == p[ms[k]] && r.ozone[k] == v[ms[k]]
    {
      assert KeptFrom(p, v, r.pressure[k], r.ozone[k], ms[k]);
    }
  }



  /**
   * When a half-parsed line left the ozone list longer and the profile is
   * reversed, pressures are paired with ozone values from other lines: two
   * lines (p0, v0) and (p1, v1) followed by a lone ozone value v2 yield p1
   * paired with v2 and p0 with v1.
   */
  lemma NormaliseMisalignsLongOzone(p: seq<real>, v: seq<real>)
    requires |p| == 2 && p[0] > p[1] > 0.0 && |v| == 3
    ensures NormaliseSonde(p, v) == Success(SondeProfile([p[1], p[0]], [v[2], v[1]]))
  {
    var p' := Oriented(p, p);
    var v' := Oriented(p, v);
    assert PositiveUpTo(p', 1) == [0];
    assert PositiveUpTo(p', 2) == [0, 1];
    var idx := PositiveIndices(p');
    var r := SondeProfile(Pick(p', idx), Pick(v', idx));
    assert NormaliseSonde(p, v) == Success(r);
    assert r.pressure == [p[1], p[0]];
    assert r.ozone == [v[2], v[1]];
  }

  /**
   * Kept as recorded, the ozone list is read from its start and its last
   * values are dropped: lines (p0, v0), a half-parsed line with ozone vh and
   * (p1, v1) yield p0 with v0 and p1 with vh.
   */
  lemma NormaliseMisalignsUnreversed(p: seq<real>, v: seq<real>)
    requires |p| == 2 && 0.0 < p[0] < p[1] && |v| == 3
    ensures NormaliseSonde(p, v) == Success(SondeProfile([p[0], p[1]], [v[0], v[1]]))
  {
    assert PositiveUpTo(p, 1) == [0];
    assert PositiveUpTo(p, 2) == [0, 1];
    var idx := PositiveIndices(p);
    var r := SondeProfile(Pick(p, idx), Pick(v, idx));
    assert NormaliseSonde(p, v) == Success(r);
    assert r.pressure == [p[0], p[1]];
    assert r.ozone == [v[0], v[1]];
  }

  /**
   * Repeated pressures keep their lines' ozone values, in reversed line order
   * like every other level: lines (p0, v0), (p1, v1), (p1, v2), (p3, v3) with
   * p0 > p1 > p3 > 0 yield p3, p1, p1, p0 with v3, v2, v1, v0.
   */
  lemma NormaliseRepeatedPressure(p: seq<real>, v: seq<real>)
    requires |p| == 4 && p[0] > p[1] && p[1] == p[2] && p[2] > p[3] > 0.0 && |v| == 4
    ensures NormaliseSonde(p, v) == Success(SondeProfile([p[3], p[2], p[1], p[0]], [v[3], v[2], v[1], v[0]]))
  {
    var r := SondeProfile([p[3], p[2], p[1], p[0]], [v[3], v[2], v[1], v[0]]);
    var ms: seq<nat> := [3, 2, 1, 0];
    forall k | 0 <= k < 4
      ensures KeptFrom(p, v, r.pressure[k], r.ozone[k], ms[k])
    {
    }
    assert LinesOf(p, v, r, ms);
    NormaliseOzone(p, v);
    var ms' :| LinesOf(p, v, NormaliseSonde(p, v).value, ms');
    LinesOfUnique(p, v, r, ms, NormaliseSonde(p, v).value, ms');
  }

  /** Parts per billion from hPa pressure and the sonde's ozone partial pressure. */
  function ToVmr(partial: seq<real>, pressure: seq<real>): (vmr: seq<real>)
    requires |partial| == |pressure|
    requires forall k :: 0 <= k < |pressure| ==> pressure[k] > 0.0
    ensures |vmr| == |partial|
  {
    seq(|partial|, k requires 0 <= k < |partial| => partial[k] / (pressure[k] * 100000.0) * 1000000000.0)
  }

  /** The partial pressure recovered from the mixing ratio: the inverse of `ToVmr`. */
  function FromVmr(vmr: seq<real>, pressure: seq<real>): (partial: seq<real>)
    requires |vmr| == |pressure|
    ensures |partial| == |vmr|
  {
    seq(|vmr|, k requires 0 <= k < |vmr| => vmr[k] * pressure[k] / 10000.0)
  }

  lemma {:induction false} VmrRoundTrip(partial: seq<real>, pressure: seq<real>)
    requires |partial| == |pressure|
    requires forall k :: 0 <= k < |pressure| ==> pressure[k] > 0.0
    ensures FromVmr(ToVmr(partial, pressure), pressure) == partial
  {
    var vmr := ToVmr(partial, pressure);
    forall k | 0 <= k < |partial|
      ensures FromVmr(vmr, pressure)[k] == partial[k]
    {
      var a, p := partial[k], pressure[k];
      calc {
        FromVmr(vmr, pressure)[k];
        (a / (p * 100000.0) * 1000000000.0) * p / 10000.0;
        { assert a / (p * 100000.0) * (p * 100000.0) == a; }
        a;
      }
    }
  }

  /** At positive pressure the mixing ratio has the sign of the partial pressure, and zero only with it. */
  lemma VmrSign(partial: seq<real>, pressure: seq<real>, k: nat)
    requires |partial| == |pressure| && k < |partial|
    requires forall i :: 0 <= i < |pressure| ==> pressure[i] > 0.0
    ensures ToVmr(partial, pressure)[k] > 0.0 <==> partial[k] > 0.0
    ensures ToVmr(partial, pressure)[k] == 0.0 <==> partial[k] == 0.0
  {
    var a, p := partial[k], pressure[k];
    assert ToVmr(partial, pressure)[k] == a / (p * 100000.0) * 1000000000.0;
  }

  // ---------------------------------------------------------------------
  // Satellite sounding.
  // ---------------------------------------------------------------------

  /** numpy's `flipud(fliplr(K))`: rows in reverse order, each row reversed. */
  function FlipBoth(k: seq<seq<real>>): (r: seq<seq<real>>)
    ensures |r| == |k|
    ensures forall i :: 0 <= i < |k| ==> r[i] == Reverse(k[|k| - 1 - i])
  {
    seq(|k|, i requires 0 <= i < |k| => Reverse(k[|k| - 1 - i]))
  }

  /** Flipping both axes of a square kernel maps entry (i, j) to (n-1-i, n-1-j). */
  lemma FlipBothSquare(k: seq<seq<real>>, i: nat, j: nat)
    requires i < |k| && j < |k|
    requires forall row :: 0 <= row < |k| ==> |k[row]| == |k|
    ensures FlipBoth(k)[i][j] == k[|k| - 1 - i][|k| - 1 - j]
  {
  }

  lemma {:induction false} FlipBothTwice(k: seq<seq<real>>)
    ensures FlipBoth(FlipBoth(k)) == k
  {
    var f := FlipBoth(k);
    forall i | 0 <= i < |k|
      ensures FlipBoth(f)[i] == k[i]
    {
      assert f[|k| - 1 - i] == Reverse(k[i]);
      ReverseReverse(k[i]);
    }
  }

  /**
   * The sounding turned top-of-atmosphere first: when `pressure[0] >
   * pressure[1]` its pressure, profile and apriori are reversed and its
   * kernel flipped on both axes; otherwise it is kept. Fewer than two
   * pressure levels end the run.
   */
  function OrientSounding(o: Sounding): (r: Result<Sounding, Fatal>)
    ensures |o.pressure| < 2 <==> r == Failure(TooFewSatelliteLevels)
    ensures r.Failure? ==> r.error == TooFewSatelliteLevels
    ensures r.Success? ==>
      && r.value.date == o.date && r.value.hour == o.hour
      && r.value.latitude == o.latitude && r.value.longitude == o.longitude
      && |r.value.pressure| == |o.pressure| && |r.value.profile| == |o.profile|
      && |r.value.apriori| == |o.apriori| && |r.value.kernel| == |o.kernel|
    ensures r.Success? && o.pressure[0] <= o.pressure[1] ==> r.value == o
    ensures r.Success? && o.pressure[0] > o.pressure[1] ==>
      && (forall i :: 0 <= i < |o.pressure| ==> r.value.pressure[i] == o.pressure[|o.pressure| - 1 - i])
      && (forall i :: 0 <= i < |o.profile| ==> r.value.profile[i] == o.profile[|o.profile| - 1 - i])
      && (forall i :: 0 <= i < |o.apriori| ==> r.value.apriori[i] == o.apriori[|o.apriori| - 1 - i])
      && (forall i :: 0 <= i < |o.kernel| ==> r.value.kernel[i] == Reverse(o.kernel[|o.kernel| - 1 - i]))
  {
    if |o.pressure| < 2 then Failure(TooFewSatelliteLevels)
    else if o.pressure[0] > o.pressure[1] then
      Success(o.(pressure := Reverse(o.pressure), profile := Reverse(o.profile),
                 apriori := Reverse(o.apriori), kernel := FlipBoth(o.kernel)))
    else Success(o)
  }

  /** A sounding in strictly monotone pressure comes out in strictly increasing pressure. */
  lemma OrientAscending(o: Sounding)
    requires |o.pressure| >= 2 && StrictlyMonotone(o.pressure)
    ensures OrientSounding(o).Success?
    ensures StrictlyIncreasing(OrientSounding(o).value.pressure)
  {
    if o.pressure[0] > o.pressure[1] {
      ReverseDecreasing(o.pressure);
    }
  }

  /** For strictly monotone pressure, orienting an oriented sounding changes nothing. */
  lemma OrientIdempotent(o: Sounding)
    requires |o.pressure| >= 2 && StrictlyMonotone(o.pressure)
    ensures OrientSounding(OrientSounding(o).value) == OrientSounding(o)
  {
    OrientAscending(o);
  }

  /**
   * The orientation test reads only the first two levels, so a sounding that
   * is not monotone can be flipped back and forth: pressures 3, 1, 2 become
   * 2, 1, 3 and then 3, 1, 2 again.
   */
  lemma OrientNotIdempotentUnsorted(o: Sounding)
    requires o.pressure == [3.0, 1.0, 2.0]
    ensures OrientSounding(o).value.pressure == [2.0, 1.0, 3.0]
    ensures OrientSounding(OrientSounding(o).value).value.pressure == o.pressure
  {
    assert Reverse([3.0, 1.0, 2.0]) == [2.0, 1.0, 3.0];
    assert Reverse([2.0, 1.0, 3.0]) == [3.0, 1.0, 2.0];
  }
}
