/**
 * The `colocate` command as a whole: the satellite soundings are brought to
 * ppb, every sonde report is matched against every sounding, and each
 * matched pair is cleaned, oriented, harmonised, screened and recorded in
 * turn, until the candidates run out or a pair ends the run.
 */
module Colocation {
  import opened Wrappers
  import opened Records
  import opened Matching
  import SondeCleaning
  import Orientation
  import Units
  import opened Screening

  /**
   * Interpolation of both profiles to the common grid and the sensitivity
   * operator, given the sonde's pressures and ratios and the oriented
   * sounding: `Skip` when a warning is raised on the way, `Abort` when an
   * error is.
   */
  type Harmonise = (seq<real>, seq<real>, Sounding) -> PairStep<Harmonised>

  /** The computations the colocation rules are parameterised by. */
  datatype Tools = Tools(parse: SondeCleaning.Parse, harmonise: Harmonise, column: ColumnFn)

  /**
   * A pair up to harmonisation: clean the sonde block, orient and filter it,
   * convert it to ppb, orient the sounding and harmonise. `Failure` is a
   * fatal condition met on the way; the list of results plays no part.
   */
  function HarmonisePair(s: SondeReport, o: Sounding, tools: Tools): (h: Result<PairStep<Harmonised>, Fatal>)
    ensures h.Failure? ==> !h.error.UnsupportedUnits?
    ensures SondeCleaning.CleanBlock(s.dataBlock, tools.parse).Failure? ==>
      h == Failure(SondeCleaning.CleanBlock(s.dataBlock, tools.parse).error)
  {
    var cleaned :- SondeCleaning.CleanBlock(s.dataBlock, tools.parse);
    HarmoniseCleaned(cleaned, o, tools)
  }

  /** `HarmonisePair` from the cleaned sonde lists on. */
  function HarmoniseCleaned(cleaned: SondeCleaning.Cleaned, o: Sounding, tools: Tools)
    : (h: Result<PairStep<Harmonised>, Fatal>)
    ensures h.Failure? ==>
      h.error == TooFewSondeLevels || h.error == SondeOzoneIndex || h.error == TooFewSatelliteLevels
    ensures |cleaned.pressure| < 2 ==> h == Failure(TooFewSondeLevels)
    ensures |o.pressure| < 2 && Orientation.NormaliseSonde(cleaned.pressure, cleaned.ozone).Success? ==>
      h == Failure(TooFewSatelliteLevels)
  {
    match Orientation.NormaliseSonde(cleaned.pressure, cleaned.ozone)
    case Failure(e) => Failure(e)
    case Success(sonde) =>
      match Orientation.OrientSounding(o)
      case Failure(e) => Failure(e)
      case Success(sounding) =>
        Success(tools.harmonise(sonde.pressure, Orientation.ToVmr(sonde.ozone, sonde.pressure), sounding))
  }

  /**
   * What screening the harmonised pair `hm` leads to: a pair that is not
   * accepted leaves the store as it was; an accepted one fails only when no
   * band was ever assigned, and otherwise appends one entry whose two
   * difference profiles are the screen's.
   */
  predicate ScreenedInto(st: Store, hm: Harmonised, r: Result<Store, Fatal>, lat: real, time: DateTime) {
    && (!Screen(hm.satellite, hm.sonde).Accepted? ==> r == Success(st))
    && (Screen(hm.satellite, hm.sonde).Accepted? ==>
          (r.Failure? <==> TroposphereBand(lat).None? && st.band.None?))
    && (Screen(hm.satellite, hm.sonde).Accepted? && r.Success? ==>
          && AppendedOne(st.results, r.value.results, lat, time)
          && r.value.results.profilePercent[Count(st.results)] == Screen(hm.satellite, hm.sonde).percent
          && r.value.results.profileAbsolute[|st.results.profileAbsolute|] == Screen(hm.satellite, hm.sonde).absolute)
  }

  /**
   * What a pair's harmonisation `h` leads to: a fatal condition ends the run
   * with that condition, an error during harmonisation ends it too, a warning
   * skips the pair, and a harmonised pair is screened into the store.
   */
  predicate Handled(st: Store, h: Result<PairStep<Harmonised>, Fatal>, r: Result<Store, Fatal>, lat: real, time: DateTime) {
    && (h.Failure? ==> r == Failure(h.error))
    && (h == Success(Abort) ==> r == Failure(InterpolationFailed))
    && (h == Success(Skip) ==> r == Success(st))
    && (h.Success? && h.value.Done? ==> ScreenedInto(st, h.value.value, r, lat, time))
  }

  /**
   * One matched pair: clean the sonde block, orient and filter it, convert to
   * ppb, orient the sounding, harmonise, then screen and record.
   */
  function ProcessPair(s: SondeReport, o: Sounding, st: Store, tools: Tools): (r: Result<Store, Fatal>)
    ensures Handled(st, HarmonisePair(s, o, tools), r, o.latitude, s.launch)
    ensures r.Success? ==>
      r.value.results == st.results || AppendedOne(st.results, r.value.results, o.latitude, s.launch)
    ensures r.Success? && Balanced(st.results) ==> Balanced(r.value.results)
    ensures r.Success? && st.band.Some? ==> r.value.band.Some?
    ensures r.Failure? ==> !r.error.UnsupportedUnits?
    ensures SondeCleaning.CleanBlock(s.dataBlock, tools.parse).Failure? ==>
      r == Failure(SondeCleaning.CleanBlock(s.dataBlock, tools.parse).error)
  {
    var cleaned :- SondeCleaning.CleanBlock(s.dataBlock, tools.parse);
    ProcessCleaned(cleaned, o, s.launch, st, tools)
  }

  /**
   * A pair from the cleaned sonde lists on: orient and filter the sonde,
   * convert it to ppb, orient the sounding, harmonise, screen and record.
   */
  function ProcessCleaned(cleaned: SondeCleaning.Cleaned, o: Sounding, time: DateTime, st: Store, tools: Tools)
    : (r: Result<Store, Fatal>)
    ensures Handled(st, HarmoniseCleaned(cleaned, o, tools), r, o.latitude, time)
    ensures r.Success? ==>
      r.value.results == st.results || AppendedOne(st.results, r.value.results, o.latitude, time)
    ensures r.Success? && Balanced(st.results) ==> Balanced(r.value.results)
    ensures r.Success? && st.band.Some? ==> r.value.band.Some?
    ensures r.Failure? ==> !r.error.UnsupportedUnits? && !r.error.ShortSondeLine?
    ensures |cleaned.pressure| < 2 ==> r == Failure(TooFewSondeLevels)
  {
    match HarmoniseCleaned(cleaned, o, tools)
    case Failure(e) => Failure(e)
    case Success(step) => RecordStep(st, step, o.latitude, time, tools.column)
  }

  /**
   * What the harmonisation of a pair leads to: an error ends the run, a
   * warning skips the pair, and a harmonised pair is screened and recorded.
   */
  function RecordStep(st: Store, step: PairStep<Harmonised>, lat: real, time: DateTime, column: ColumnFn)
    : (r: Result<Store, Fatal>)
    ensures step.Abort? <==> r == Failure(InterpolationFailed)
    ensures step.Skip? ==> r == Success(st)
    ensures step.Done? ==> ScreenedInto(st, step.value, r, lat, time)
    ensures r.Success? ==> r.value.results == st.results || AppendedOne(st.results, r.value.results, lat, time)
    ensures r.Success? && Balanced(st.results) ==> Balanced(r.value.results)
    ensures r.Success? && st.band.Some? ==> r.value.band.Some?
    ensures r.Failure? ==> r.error == InterpolationFailed || r.error == NoTroposphereBand
  {
    match step
    case Abort => Failure(InterpolationFailed)
    case Skip => Success(st)
    case Done(hm) => Record(st, hm, lat, time, column)
  }

  predicate ValidPairs(sondes: seq<SondeReport>, soundings: seq<Sounding>, pairs: seq<Pair>) {
    forall m :: 0 <= m < |pairs| ==> pairs[m].sonde < |sondes| && pairs[m].sounding < |soundings|
  }

  /** The pairs from position `k` on, processed in order from `st`. */
  function RunPairs(sondes: seq<SondeReport>, soundings: seq<Sounding>, pairs: seq<Pair>, k: nat,
                    st: Store, tools: Tools): Result<Store, Fatal>
    requires ValidPairs(sondes, soundings, pairs) && k <= |pairs|
    decreases |pairs| - k
  {
    if k == |pairs| then Success(st)
    else
      var st' :- ProcessPair(sondes[pairs[k].sonde], soundings[pairs[k].sounding], st, tools);
      RunPairs(sondes, soundings, pairs, k + 1, st', tools)
  }

  /** The whole colocation: the six result lists, or the condition that ended the run. */
  function Colocate(sondes: seq<SondeReport>, soundings: seq<Sounding>, units: string,
                    criteria: Criteria, tools: Tools): Result<Results, Fatal>
  {
    var scaled :- Units.ScaleSoundings(soundings, units);
    var pairs := Candidates(sondes, scaled, criteria);
    var st :- RunPairs(sondes, scaled, pairs, 0, EmptyStore, tools);
    Success(st.results)
  }

  // ---------------------------------------------------------------------
  // The loop over the candidates.
  // ---------------------------------------------------------------------

  /**
   * The colocation loop: the candidates in sonde-major order, each pair
   * processed against the lists built so far; the first fatal condition
   * ends the run.
   */
  method RunColocation(sondes: seq<SondeReport>, soundings: seq<Sounding>, units: string,
                       criteria: Criteria, tools: Tools) returns (r: Result<Results, Fatal>)
    ensures r == Colocate(sondes, soundings, units, criteria, tools)
  {
    var scaling := Units.ScaleSoundings(soundings, units);
    if scaling.Failure? {
      return Failure(scaling.error);
    }
    var scaled := scaling.value;
    var pairs := Candidates(sondes, scaled, criteria);
    var st := EmptyStore;
    var k := 0;
    while k < |pairs|
      invariant k <= |pairs|
      invariant RunPairs(sondes, scaled, pairs, k, st, tools) == RunPairs(sondes, scaled, pairs, 0, EmptyStore, tools)
    {
      var step := ProcessPair(sondes[pairs[k].sonde], scaled[pairs[k].sounding], st, tools);
      if step.Failure? {
        return Failure(step.error);
      }
      st := step.value;
      k := k + 1;
    }
    return Success(st.results);
  }

  // ---------------------------------------------------------------------
  // Properties of a run.
  // ---------------------------------------------------------------------

  /** A run keeps the six lists the same length. */
  lemma {:induction false} RunBalanced(sondes: seq<SondeReport>, soundings: seq<Sounding>, pairs: seq<Pair>, k: nat,
                                       st: Store, tools: Tools)
    requires ValidPairs(sondes, soundings, pairs) && k <= |pairs|
    requires Balanced(st.results)
    ensures RunPairs(sondes, soundings, pairs, k, st, tools).Success? ==>
      Balanced(RunPairs(sondes, soundings, pairs, k, st, tools).value.results)
    decreases |pairs| - k
  {
    if k < |pairs| {
      var step := ProcessPair(sondes[pairs[k].sonde], soundings[pairs[k].sounding], st, tools);
      if step.Success? {
        RunBalanced(sondes, soundings, pairs, k + 1, step.value, tools);
      }
    }
  }

  /** A run adds at most one entry per remaining pair. */
  lemma {:induction false} RunCount(sondes: seq<SondeReport>, soundings: seq<Sounding>, pairs: seq<Pair>, k: nat,
                                    st: Store, tools: Tools)
    requires ValidPairs(sondes, soundings, pairs) && k <= |pairs|
    ensures RunPairs(sondes, soundings, pairs, k, st, tools).Success? ==>
      Count(st.results) <= Count(RunPairs(sondes, soundings, pairs, k, st, tools).value.results)
                        <= Count(st.results) + (|pairs| - k)
    decreases |pairs| - k
  {
    if k < |pairs| {
      var step := ProcessPair(sondes[pairs[k].sonde], soundings[pairs[k].sounding], st, tools);
      if step.Success? {
        RunCount(sondes, soundings, pairs, k + 1, step.value, tools);
      }
    }
  }

  /** The pair is harmonised and the screen accepts it. */
  predicate Accepts(s: SondeReport, o: Sounding, tools: Tools) {
    && HarmonisePair(s, o, tools).Success?
    && HarmonisePair(s, o, tools).value.Done?
    && Screen(HarmonisePair(s, o, tools).value.value.satellite, HarmonisePair(s, o, tools).value.value.sonde).Accepted?
  }

  /** How many of the pairs from position `k` on are accepted. */
  function AcceptedFrom(sondes: seq<SondeReport>, soundings: seq<Sounding>, pairs: seq<Pair>, k: nat, tools: Tools): nat
    requires ValidPairs(sondes, soundings, pairs) && k <= |pairs|
    decreases |pairs| - k
  {
    if k == |pairs| then 0
    else
      (if Accepts(sondes[pairs[k].sonde], soundings[pairs[k].sounding], tools) then 1 else 0)
      + AcceptedFrom(sondes, soundings, pairs, k + 1, tools)
  }

  /** A pair that is processed without ending the run adds an entry exactly when it is accepted. */
  lemma PairCount(s: SondeReport, o: Sounding, st: Store, tools: Tools)
    requires ProcessPair(s, o, st, tools).Success?
    ensures Count(ProcessPair(s, o, st, tools).value.results) == Count(st.results) + if Accepts(s, o, tools) then 1 else 0
  {
    var h := HarmonisePair(s, o, tools);
    assert Handled(st, h, ProcessPair(s, o, st, tools), o.latitude, s.launch);
  }

  /** A run that completes records exactly one entry per accepted pair. */
  lemma {:induction false} RunAccepted(sondes: seq<SondeReport>, soundings: seq<Sounding>, pairs: seq<Pair>, k: nat,
                                       st: Store, tools: Tools)
    requires ValidPairs(sondes, soundings, pairs) && k <= |pairs|
    ensures RunPairs(sondes, soundings, pairs, k, st, tools).Success? ==>
      Count(RunPairs(sondes, soundings, pairs, k, st, tools).value.results)
        == Count(st.results) + AcceptedFrom(sondes, soundings, pairs, k, tools)
    decreases |pairs| - k
  {
    if k < |pairs| {
      var step := ProcessPair(sondes[pairs[k].sonde], soundings[pairs[k].sounding], st, tools);
      if step.Success? {
        PairCount(sondes[pairs[k].sonde], soundings[pairs[k].sounding], st, tools);
        RunAccepted(sondes, soundings, pairs, k + 1, step.value, tools);
      }
    }
  }

  /** The conditions a run can end with are those of single pairs: never a unit error. */
  lemma {:induction false} RunErrors(sondes: seq<SondeReport>, soundings: seq<Sounding>, pairs: seq<Pair>, k: nat,
                                     st: Store, tools: Tools)
    requires ValidPairs(sondes, soundings, pairs) && k <= |pairs|
    ensures RunPairs(sondes, soundings, pairs, k, st, tools).Failure? ==>
      !RunPairs(sondes, soundings, pairs, k, st, tools).error.UnsupportedUnits?
    decreases |pairs| - k
  {
    if k < |pairs| {
      var step := ProcessPair(sondes[pairs[k].sonde], soundings[pairs[k].sounding], st, tools);
      if step.Success? {
        RunErrors(sondes, soundings, pairs, k + 1, step.value, tools);
      }
    }
  }

  /** Entry `x` of the latitude and time lists carries the sounding latitude and launch time of pair `m`. */
  predicate FromPair(r: Results, x: nat, sondes: seq<SondeReport>, soundings: seq<Sounding>, pairs: seq<Pair>, m: nat) {
    && x < |r.latitudes| && x < |r.times| && m < |pairs|
    && pairs[m].sonde < |sondes| && pairs[m].sounding < |soundings|
    && r.latitudes[x] == soundings[pairs[m].sounding].latitude
    && r.times[x] == sondes[pairs[m].sonde].launch
  }

  predicate TracedAt(r: Results, x: nat, sondes: seq<SondeReport>, soundings: seq<Sounding>, pairs: seq<Pair>) {
    exists m :: 0 <= m < |pairs| && FromPair(r, x, sondes, soundings, pairs, m)
  }

  /** Every entry of the latitude and time lists comes from one of the pairs. */
  predicate Traced(r: Results, sondes: seq<SondeReport>, soundings: seq<Sounding>, pairs: seq<Pair>) {
    && |r.times| == |r.latitudes|
    && forall x :: 0 <= x < |r.latitudes| ==> TracedAt(r, x, sondes, soundings, pairs)
  }

  /** Appending the entry of a pair keeps every entry traced. */
  lemma TracedStep(a: Results, b: Results, sondes: seq<SondeReport>, soundings: seq<Sounding>, pairs: seq<Pair>, k: nat)
    requires ValidPairs(sondes, soundings, pairs) && k < |pairs|
    requires Traced(a, sondes, soundings, pairs)
    requires b == a || AppendedOne(a, b, soundings[pairs[k].sounding].latitude, sondes[pairs[k].sonde].launch)
    ensures Traced(b, sondes, soundings, pairs)
  {
    if b != a {
      forall x | 0 <= x < |b.latitudes|
        ensures TracedAt(b, x, sondes, soundings, pairs)
      {
        if x < |a.latitudes| {
          assert TracedAt(a, x, sondes, soundings, pairs);
          var m :| 0 <= m < |pairs| && FromPair(a, x, sondes, soundings, pairs, m);
          assert b.latitudes[x] == a.latitudes[x] && b.times[x] == a.times[x];
          assert FromPair(b, x, sondes, soundings, pairs, m);
        } else {
          assert FromPair(b, x, sondes, soundings, pairs, k);
        }
      }
    }
  }

  /** A run only records entries of the pairs it was given. */
  lemma {:induction false} RunTraced(sondes: seq<SondeReport>, soundings: seq<Sounding>, pairs: seq<Pair>, k: nat,
                                     st: Store, tools: Tools)
    requires ValidPairs(sondes, soundings, pairs) && k <= |pairs|
    requires Traced(st.results, sondes, soundings, pairs)
    ensures RunPairs(sondes, soundings, pairs, k, st, tools).Success? ==>
      Traced(RunPairs(sondes, soundings, pairs, k, st, tools).value.results, sondes, soundings, pairs)
    decreases |pairs| - k
  {
    if k < |pairs| {
      var step := ProcessPair(sondes[pairs[k].sonde], soundings[pairs[k].sounding], st, tools);
      if step.Success? {
        TracedStep(st.results, step.value.results, sondes, soundings, pairs, k);
        RunTraced(sondes, soundings, pairs, k + 1, step.value, tools);
      }
    }
  }

  // ---------------------------------------------------------------------
  // Properties of the whole colocation.
  // ---------------------------------------------------------------------

  /** The run ends with a unit error exactly when the configured units are not supported. */
  lemma ColocateUnits(sondes: seq<SondeReport>, soundings: seq<Sounding>, units: string,
                      criteria: Criteria, tools: Tools)
    ensures Colocate(sondes, soundings, units, criteria, tools) == Failure(UnsupportedUnits(units)) <==>
      Units.UnitScale(units).Failure?
  {
    var scaling := Units.ScaleSoundings(soundings, units);
    if scaling.Success? {
      var pairs := Candidates(sondes, scaling.value, criteria);
      RunErrors(sondes, scaling.value, pairs, 0, EmptyStore, tools);
    }
  }

  /** A completed run leaves the six lists the same length. */
  lemma ColocateBalanced(sondes: seq<SondeReport>, soundings: seq<Sounding>, units: string,
                         criteria: Criteria, tools: Tools)
    ensures Colocate(sondes, soundings, units, criteria, tools).Success? ==>
      Balanced(Colocate(sondes, soundings, units, criteria, tools).value)
  {
    var scaling := Units.ScaleSoundings(soundings, units);
    if scaling.Success? {
      var pairs := Candidates(sondes, scaling.value, criteria);
      RunBalanced(sondes, scaling.value, pairs, 0, EmptyStore, tools);
    }
  }

  /** At most one entry per matched pair of the raw inputs. */
  lemma ColocateCount(sondes: seq<SondeReport>, soundings: seq<Sounding>, units: string,
                      criteria: Criteria, tools: Tools)
    ensures Colocate(sondes, soundings, units, criteria, tools).Success? ==>
      Count(Colocate(sondes, soundings, units, criteria, tools).value) <= |Candidates(sondes, soundings, criteria)|
  {
    var scaling := Units.ScaleSoundings(soundings, units);
    if scaling.Success? {
      var pairs := Candidates(sondes, scaling.value, criteria);
      RunCount(sondes, scaling.value, pairs, 0, EmptyStore, tools);
      Units.ScalingKeepsCandidates(sondes, soundings, units, criteria);
    }
  }

  /** Entry `x` carries the latitude of a sounding and the launch time of a sonde that match. */
  predicate MatchedEntry(r: Results, x: nat, sondes: seq<SondeReport>, soundings: seq<Sounding>, criteria: Criteria) {
    && x < |r.latitudes| && x < |r.times|
    && exists i, j ::
      && 0 <= i < |sondes| && 0 <= j < |soundings|
      && IsMatch(sondes[i], soundings[j], criteria)
      && r.latitudes[x] == soundings[j].latitude
      && r.times[x] == sondes[i].launch
  }

  /**
   * Every recorded latitude and time belongs to a sonde and a sounding that
   * match: same day, launch hour close to the overpass, close in distance.
   */
  lemma ColocateTraced(sondes: seq<SondeReport>, soundings: seq<Sounding>, units: string,
                       criteria: Criteria, tools: Tools)
    ensures Colocate(sondes, soundings, units, criteria, tools).Success? ==>
      var r := Colocate(sondes, soundings, units, criteria, tools).value;
      |r.times| == |r.latitudes| && forall x :: 0 <= x < |r.latitudes| ==> MatchedEntry(r, x, sondes, soundings, criteria)
  {
    var scaling := Units.ScaleSoundings(soundings, units);
    if scaling.Success? {
      var scaled := scaling.value;
      var pairs := Candidates(sondes, scaled, criteria);
      var run := RunPairs(sondes, scaled, pairs, 0, EmptyStore, tools);
      if run.Success? {
        Units.ScalingKeepsCandidates(sondes, soundings, units, criteria);
        RunTraced(sondes, scaled, pairs, 0, EmptyStore, tools);
        var r := run.value.results;
        forall x | 0 <= x < |r.latitudes|
          ensures MatchedEntry(r, x, sondes, soundings, criteria)
        {
          assert TracedAt(r, x, sondes, scaled, pairs);
          var m :| 0 <= m < |pairs| && FromPair(r, x, sondes, scaled, pairs, m);
          var i, j := pairs[m].sonde, pairs[m].sounding;
          assert Pair(i, j) in pairs;
          assert IsMatch(sondes[i], soundings[j], criteria);
        }
      }
    }
  }

  /**
   * A completed run has exactly as many entries as there are candidate pairs
   * of the scaled soundings that are harmonised and accepted by the screen.
   */
  lemma ColocateAccepted(sondes: seq<SondeReport>, soundings: seq<Sounding>, units: string,
                         criteria: Criteria, tools: Tools)
    ensures Colocate(sondes, soundings, units, criteria, tools).Success? ==>
      && Units.ScaleSoundings(soundings, units).Success?
      && var scaled := Units.ScaleSoundings(soundings, units).value;
         Count(Colocate(sondes, soundings, units, criteria, tools).value)
           == AcceptedFrom(sondes, scaled, Candidates(sondes, scaled, criteria), 0, tools)
  {
    var scaling := Units.ScaleSoundings(soundings, units);
    if scaling.Success? {
      var pairs := Candidates(sondes, scaling.value, criteria);
      RunAccepted(sondes, scaling.value, pairs, 0, EmptyStore, tools);
    }
  }

  /** With no matching pair and supported units, the run completes with empty lists. */
  lemma NoMatchesNoResults(sondes: seq<SondeReport>, soundings: seq<Sounding>, units: string,
                           criteria: Criteria, tools: Tools)
    requires Units.UnitScale(units).Success?
    requires forall i, j :: 0 <= i < |sondes| && 0 <= j < |soundings| ==> !IsMatch(sondes[i], soundings[j], criteria)
    ensures Colocate(sondes, soundings, units, criteria, tools) == Success(NoResults)
  {
    var scaled := Units.ScaleSoundings(soundings, units).value;
    Units.ScalingKeepsCandidates(sondes, soundings, units, criteria);
  }
}
