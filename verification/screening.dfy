/**
 * What `colocate` keeps of a harmonised pair: the outlier screen on the
 * difference at the last grid level (1000 hPa), the troposphere band chosen from the sounding's
 * latitude, and the six result lists the accepted pairs are appended to.
 */
module Screening {
  import opened Wrappers
  import opened Seqs
  import opened Records

  /** Number of levels of the common pressure grid. */
  const GridSize: nat := 20

  /** The common pressure grid (hPa) that both profiles are interpolated to. */
  const PressureGrid: seq<real> :=
    [10.0, 20.0, 30.0, 50.0, 70.0, 100.0, 150.0, 200.0, 250.0, 300.0,
     400.0, 500.0, 600.0, 700.0, 800.0, 850.0, 900.0, 925.0, 950.0, 1000.0]

  /** A profile on the common grid. */
  type GridValues = s: seq<real> | |s| == GridSize witness seq(20, i => 0.0)

  /** The satellite profile and the sonde profile seen through the retrieval, both on the grid. */
  datatype Harmonised = Harmonised(satellite: GridValues, sonde: GridValues)

  lemma GridShape()
    ensures |PressureGrid| == GridSize
    ensures StrictlyIncreasing(PressureGrid)
  {
  }

  // ---------------------------------------------------------------------
  // Troposphere band.
  // ---------------------------------------------------------------------

  /** The index the polar branch would choose (850 hPa). */
  const PolarBand: nat := 15

  /**
   * Index of the grid level where the troposphere slice starts: 11 in the
   * tropics, 12 in the subtropics, 14 at mid-latitudes. The polar test asks
   * for a latitude below -60 and above 60 at once, so from 60 degrees
   * polewards no index is chosen.
   */
  function TroposphereBand(lat: real): (r: Option<nat>)
    ensures r == Some(11) <==> Abs(lat) < 15.0
    ensures r == Some(12) <==> 15.0 <= Abs(lat) < 30.0
    ensures r == Some(14) <==> 30.0 <= Abs(lat) < 60.0
    ensures r.None? <==> Abs(lat) >= 60.0
    ensures r.Some? ==> r.value < GridSize
  {
    if lat > -15.0 && lat < 15.0 then Some(11)
    else if (lat > -30.0 && lat <= -15.0) || (lat < 30.0 && lat >= 15.0) then Some(12)
    else if (lat > -60.0 && lat <= -30.0) || (lat < 60.0 && lat >= 30.0) then Some(14)
    else if lat < -60.0 && lat > 60.0 then Some(PolarBand)
    else None
  }

  /** The polar index is never chosen. */
  lemma NoPolarBand(lat: real)
    ensures TroposphereBand(lat) != Some(PolarBand)
  {
  }

  /**
   * The levels where the bands start are 500, 600 and 800 hPa: with twenty
   * levels, index 11 is not the 150 hPa the band comments describe.
   */
  lemma BandLevels(lat: real)
    requires TroposphereBand(lat).Some?
    ensures PressureGrid[TroposphereBand(lat).value] ==
      if Abs(lat) < 15.0 then 500.0 else if Abs(lat) < 30.0 then 600.0 else 800.0
  {
  }

  // ---------------------------------------------------------------------
  // Outlier screen.
  // ---------------------------------------------------------------------

  /** Where a pair stands after the screen. */
  datatype Screened =
    | Skipped                                           // a zero in the divisor raised a warning
    | Rejected                                          // the difference at 1000 hPa is 200% or more
    | Accepted(percent: GridValues, absolute: GridValues)

  predicate HasZero(s: seq<real>) {
    exists k :: 0 <= k < |s| && s[k] == 0.0
  }

  /** The percentage difference at level `k`. */
  function PercentAt(sat: GridValues, h: GridValues, k: nat): real
    requires k < GridSize && h[k] != 0.0
  {
    100.0 * ((sat[k] - h[k]) / h[k])
  }

  /**
   * The screen: a zero anywhere in the sonde profile makes the division warn
   * and the pair is skipped; otherwise the pair is kept when the percentage
   * difference at the last grid level is strictly under 200 in size.
   */
  function Screen(sat: GridValues, h: GridValues): (r: Screened)
    ensures r.Skipped? <==> HasZero(h)
    ensures r.Accepted? <==> !HasZero(h) && Abs(PercentAt(sat, h, GridSize - 1)) < 200.0
    ensures r.Accepted? ==> forall k :: 0 <= k < GridSize ==>
      r.percent[k] * h[k] == 100.0 * (sat[k] - h[k]) && r.absolute[k] == (sat[k] - h[k]) * 1000000000.0
  {
    if HasZero(h) then Skipped
    else
      var percent: GridValues := seq(GridSize, k requires 0 <= k < GridSize => PercentAt(sat, h, k));
      if Abs(percent[GridSize - 1]) < 200.0 then
        Accepted(percent, seq(GridSize, k requires 0 <= k < GridSize => (sat[k] - h[k]) * 1000000000.0))
      else Rejected
  }

  /** A difference of exactly 200% at the last grid level (1000 hPa) is rejected. */
  lemma ScreenRejectsAtLimit(sat: GridValues, h: GridValues)
    requires !HasZero(h)
    requires sat[GridSize - 1] == 3.0 * h[GridSize - 1]
    ensures Screen(sat, h) == Rejected
  {
    var x := h[GridSize - 1];
    assert (3.0 * x - x) / x == 2.0;
  }

  /** Identical profiles are accepted with no difference anywhere. */
  lemma ScreenAcceptsAgreement(h: GridValues)
    requires !HasZero(h)
    ensures Screen(h, h).Accepted?
    ensures forall k :: 0 <= k < GridSize ==> Screen(h, h).percent[k] == 0.0 && Screen(h, h).absolute[k] == 0.0
  {
  }

  // ---------------------------------------------------------------------
  // Result lists.
  // ---------------------------------------------------------------------

  /** The six lists written out at the end of a run. */
  datatype Results = Results(
    profilePercent: seq<GridValues>,
    profileAbsolute: seq<GridValues>,
    tropospherePercent: seq<real>,
    troposphereAbsolute: seq<real>,
    latitudes: seq<real>,
    times: seq<DateTime>)

  const NoResults: Results := Results([], [], [], [], [], [])

  /** One entry per accepted pair in every list. */
  predicate Balanced(r: Results) {
    && |r.profileAbsolute| == |r.profilePercent|
    && |r.tropospherePercent| == |r.profilePercent|
    && |r.troposphereAbsolute| == |r.profilePercent|
    && |r.latitudes| == |r.profilePercent|
    && |r.times| == |r.profilePercent|
  }

  function Count(r: Results): nat {
    |r.profilePercent|
  }

  /**
   * The lists together with the band index last assigned. In the source the
   * index is a local variable of the whole run, so a pair whose latitude
   * picks no band reuses the index of the accepted pair before it.
   */
  datatype Store = Store(results: Results, band: Option<nat>)

  const EmptyStore: Store := Store(NoResults, None)

  /** The column integration as called on the troposphere slice (`convert_ppm_to_du`). */
  type ColumnFn = (seq<real>, seq<real>) -> real

  /** Python's `s[e:]`: empty when `e` is past the end. */
  function From(s: seq<real>, e: nat): (r: seq<real>)
    ensures e <= |s| ==> r == s[e..]
    ensures e > |s| ==> r == []
  {
    if e <= |s| then s[e..] else []
  }

  /** The relative difference `(sat - h) / h` and the ppm difference on the slice from level `e`. */
  function RelativeFrom(sat: GridValues, h: GridValues, e: nat): (r: seq<real>)
    requires !HasZero(h)
    ensures |r| == |From(h, e)|
  {
    if e <= GridSize then seq(GridSize - e, k requires 0 <= k < GridSize - e => (sat[e + k] - h[e + k]) / h[e + k])
    else []
  }

  function PpmFrom(sat: GridValues, h: GridValues, e: nat): (r: seq<real>)
    ensures |r| == |From(h, e)|
  {
    if e <= GridSize then seq(GridSize - e, k requires 0 <= k < GridSize - e => (sat[e + k] - h[e + k]) * 1000000.0)
    else []
  }

  function Append(r: Results, percent: GridValues, absolute: GridValues, tropPercent: real, tropAbsolute: real,
                  lat: real, time: DateTime): Results
  {
    Results(r.profilePercent + [percent], r.profileAbsolute + [absolute],
            r.tropospherePercent + [tropPercent], r.troposphereAbsolute + [tropAbsolute],
            r.latitudes + [lat], r.times + [time])
  }

  /** `b` is `a` with one more entry in every list, that entry carrying `lat` and `time`. */
  predicate AppendedOne(a: Results, b: Results, lat: real, time: DateTime) {
    && |b.profilePercent| == |a.profilePercent| + 1
    && |b.profileAbsolute| == |a.profileAbsolute| + 1
    && |b.tropospherePercent| == |a.tropospherePercent| + 1
    && |b.troposphereAbsolute| == |a.troposphereAbsolute| + 1
    && b == Append(a, b.profilePercent[|a.profilePercent|], b.profileAbsolute[|a.profileAbsolute|],
                   b.tropospherePercent[|a.tropospherePercent|], b.troposphereAbsolute[|a.troposphereAbsolute|],
                   lat, time)
  }

  lemma AppendIsOne(a: Results, percent: GridValues, absolute: GridValues, tropPercent: real, tropAbsolute: real,
                    lat: real, time: DateTime)
    ensures AppendedOne(a, Append(a, percent, absolute, tropPercent, tropAbsolute, lat, time), lat, time)
    ensures Balanced(a) ==> Balanced(Append(a, percent, absolute, tropPercent, tropAbsolute, lat, time))
  {
  }

  /**
   * The two troposphere entries `b` appends to `a`: the column function on the
   * grid from level `e` down, applied to the relative difference (as a
   * percentage) and to the ppm difference of the same levels.
   */
  predicate TroposphereEntries(a: Results, b: Results, hm: Harmonised, e: nat, column: ColumnFn)
    requires !HasZero(hm.sonde)
  {
    && |b.tropospherePercent| > |a.tropospherePercent|
    && |b.troposphereAbsolute| > |a.troposphereAbsolute|
    && b.tropospherePercent[|a.tropospherePercent|] ==
         100.0 * column(From(PressureGrid, e), RelativeFrom(hm.satellite, hm.sonde, e))
    && b.troposphereAbsolute[|a.troposphereAbsolute|] ==
         column(From(PressureGrid, e), PpmFrom(hm.satellite, hm.sonde, e))
  }

  /**
   * Screen one harmonised pair and, when it is kept, append its differences,
   * its two troposphere columns, its latitude and its launch time. Keeping a
   * pair with no band from its latitude and none assigned before ends the run.
   */
  function Record(st: Store, hm: Harmonised, lat: real, time: DateTime, column: ColumnFn): (r: Result<Store, Fatal>)
    ensures !Screen(hm.satellite, hm.sonde).Accepted? ==> r == Success(st)
    ensures r.Failure? <==>
      Screen(hm.satellite, hm.sonde).Accepted? && TroposphereBand(lat).None? && st.band.None?
    ensures r.Failure? ==> r.error == NoTroposphereBand
    ensures r.Success? && Balanced(st.results) ==> Balanced(r.value.results)
    ensures r.Success? && Screen(hm.satellite, hm.sonde).Accepted? ==>
      && AppendedOne(st.results, r.value.results, lat, time)
      && r.value.results.profilePercent[Count(st.results)] == Screen(hm.satellite, hm.sonde).percent
      && r.value.results.profileAbsolute[|st.results.profileAbsolute|] == Screen(hm.satellite, hm.sonde).absolute
      && r.value.band.Some?
      && (TroposphereBand(lat).Some? ==> r.value.band == TroposphereBand(lat))
      && (TroposphereBand(lat).None? ==> r.value.band == st.band)
      && TroposphereEntries(st.results, r.value.results, hm, r.value.band.value, column)
  {
    match Screen(hm.satellite, hm.sonde)
    case Skipped => Success(st)
    case Rejected => Success(st)
    case Accepted(percent, absolute) =>
      var band := if TroposphereBand(lat).Some? then TroposphereBand(lat) else st.band;
      if band.None? then Failure(NoTroposphereBand)
      else
        var e := band.value;
        var grid := From(PressureGrid, e);
        var tropPercent := 100.0 * column(grid, RelativeFrom(hm.satellite, hm.sonde, e));
        var tropAbsolute := column(grid, PpmFrom(hm.satellite, hm.sonde, e));
        AppendIsOne(st.results, percent, absolute, tropPercent, tropAbsolute, lat, time);
        Success(Store(Append(st.results, percent, absolute, tropPercent, tropAbsolute, lat, time), band))
  }

  /**
   * Once a band has been assigned, the run never fails for want of one: a
   * polar pair reuses the previous band.
   */
  lemma RecordAfterBand(st: Store, hm: Harmonised, lat: real, time: DateTime, column: ColumnFn)
    requires st.band.Some?
    ensures Record(st, hm, lat, time, column).Success?
    ensures Record(st, hm, lat, time, column).value.band.Some?
  {
  }
}
