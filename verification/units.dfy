/**
 * Unit scaling of the satellite profiles at ingestion: the configured
 * `ozone_units` decides one factor that brings every profile and apriori to
 * parts per billion.
 */
module Units {
  import opened Wrappers
  import opened Records
  import Matching

  const UnitsNone: string := "None"
  const UnitsPpb: string := "ppb"
  const UnitsPpm: string := "ppm"

  /** Volume mixing ratio (a fraction) to parts per billion. */
  const FractionToPpb: real := 1000000000.0
  /** Parts per million to parts per billion. */
  const PpmToPpb: real := 1000.0

  /**
   * The factor for the configured units: `None` means the product stores a
   * fraction, `ppb` needs nothing, `ppm` is a thousandth of a ppb. Anything
   * else ends the run.
   */
  function UnitScale(units: string): (r: Result<real, Fatal>)
    ensures r.Success? <==> units == UnitsNone || units == UnitsPpb || units == UnitsPpm
    ensures r.Failure? ==> r.error == UnsupportedUnits(units)
    ensures r.Success? ==> r.value > 0.0
    ensures units == UnitsNone ==> r == Success(FractionToPpb)
    ensures units == UnitsPpb ==> r == Success(1.0)
    ensures units == UnitsPpm ==> r == Success(PpmToPpb)
  {
    if units == UnitsNone then Success(FractionToPpb)
    else if units == UnitsPpb then Success(1.0)
    else if units == UnitsPpm then Success(PpmToPpb)
    else Failure(UnsupportedUnits(units))
  }

  /** Every entry of `s` multiplied by `f`. */
  function Scale(s: seq<real>, f: real): (r: seq<real>)
    ensures |r| == |s|
    ensures forall i :: 0 <= i < |s| ==> r[i] == s[i] * f
  {
    seq(|s|, i requires 0 <= i < |s| => s[i] * f)
  }

  /** A sounding whose profile and apriori are multiplied by `f`; nothing else changes. */
  function ScaleSounding(o: Sounding, f: real): (r: Sounding)
    ensures r.date == o.date && r.hour == o.hour
    ensures r.latitude == o.latitude && r.longitude == o.longitude
    ensures r.pressure == o.pressure && r.kernel == o.kernel
    ensures |r.profile| == |o.profile| && |r.apriori| == |o.apriori|
    ensures forall i :: 0 <= i < |o.profile| ==> r.profile[i] == o.profile[i] * f
    ensures forall i :: 0 <= i < |o.apriori| ==> r.apriori[i] == o.apriori[i] * f
  {
    o.(profile := Scale(o.profile, f), apriori := Scale(o.apriori, f))
  }

  /** All soundings brought to parts per billion, or the unit error. */
  function ScaleSoundings(soundings: seq<Sounding>, units: string): (r: Result<seq<Sounding>, Fatal>)
    ensures r.Failure? <==> UnitScale(units).Failure?
    ensures r.Failure? ==> r.error == UnsupportedUnits(units)
    ensures r.Success? ==> |r.value| == |soundings|
    ensures r.Success? ==> forall j :: 0 <= j < |soundings| ==>
      r.value[j] == ScaleSounding(soundings[j], UnitScale(units).value)
  {
    var f :- UnitScale(units);
    Success(seq(|soundings|, j requires 0 <= j < |soundings| => ScaleSounding(soundings[j], f)))
  }

  /** Scaling by a positive factor is undone by scaling by its inverse. */
  lemma {:induction false} ScaleInverse(s: seq<real>, f: real)
    requires f > 0.0
    ensures Scale(Scale(s, f), 1.0 / f) == s
  {
    var t := Scale(Scale(s, f), 1.0 / f);
    forall i | 0 <= i < |s|
      ensures t[i] == s[i]
    {
      assert t[i] == s[i] * f * (1.0 / f);
      assert f * (1.0 / f) == 1.0;
    }
  }

  /** Parts per billion leave every sounding as it was. */
  lemma {:induction false} PpbUnchanged(soundings: seq<Sounding>)
    ensures ScaleSoundings(soundings, UnitsPpb) == Success(soundings)
  {
    assert UnitScale(UnitsPpb) == Success(1.0);
    var r := ScaleSoundings(soundings, UnitsPpb).value;
    forall j | 0 <= j < |soundings|
      ensures r[j] == soundings[j]
    {
      var o := soundings[j];
      assert Scale(o.profile, 1.0) == o.profile;
      assert Scale(o.apriori, 1.0) == o.apriori;
      assert r[j] == ScaleSounding(o, 1.0);
    }
    assert r == soundings;
  }

  /** Scaling does not touch what matching reads, so the candidates are those of the raw soundings. */
  lemma ScalingKeepsCandidates(sondes: seq<SondeReport>, soundings: seq<Sounding>, units: string, c: Matching.Criteria)
    requires ScaleSoundings(soundings, units).Success?
    ensures Matching.Candidates(sondes, ScaleSoundings(soundings, units).value, c) == Matching.Candidates(sondes, soundings, c)
  {
    Matching.CandidatesIgnoreProfiles(sondes, ScaleSoundings(soundings, units).value, soundings, c);
  }
}
