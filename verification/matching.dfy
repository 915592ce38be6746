/**
 * The spatiotemporal matcher of `colocate`: which (sonde, sounding) pairs are
 * candidates, and in which order they are visited.
 */
module Matching {
  import opened Seqs
  import opened Records

  /** Great-circle distance in km between (lat1, lon1) and (lat2, lon2); the haversine is not modelled. */
  type Distance = (real, real, real, real) -> real

  /** The two configured thresholds and the distance function. */
  datatype Criteria = Criteria(distanceTime: real, distanceLocation: real, distance: Distance)

  /** A candidate: index of the sonde report and index of the satellite sounding. */
  datatype Pair = Pair(sonde: nat, sounding: nat)

  predicate SameDay(t: DateTime, d: Date) {
    t.year == d.year && t.month == d.month && t.day == d.day
  }

  /**
   * The three tests of the nested loop: same calendar day; the sonde's whole
   * hour against the fractional satellite hour, strictly within `distanceTime`;
   * the distance from the sounding to the sonde (latitude first) at most
   * `distanceLocation`.
   */
  predicate IsMatch(s: SondeReport, o: Sounding, c: Criteria) {
    && SameDay(s.launch, o.date)
    && Abs(s.launch.hour as real - o.hour) < c.distanceTime
    && c.distance(o.latitude, o.longitude, s.latitude, s.longitude) <= c.distanceLocation
  }

  /** Sonde-major lexicographic order on pairs. */
  predicate Before(a: Pair, b: Pair) {
    a.sonde < b.sonde || (a.sonde == b.sonde && a.sounding < b.sounding)
  }

  /** The matches of sonde `i` among soundings `j..`, in sounding order (the inner loop). */
  function Row(sondes: seq<SondeReport>, soundings: seq<Sounding>, c: Criteria, i: nat, j: nat): seq<Pair>
    requires i < |sondes| && j <= |soundings|
    decreases |soundings| - j
  {
    if j == |soundings| then []
    else
      var rest := Row(sondes, soundings, c, i, j + 1);
      if IsMatch(sondes[i], soundings[j], c) then [Pair(i, j)] + rest else rest
  }

  /** The matches of sondes `i..`, sonde-major (the outer loop). */
  function RowsFrom(sondes: seq<SondeReport>, soundings: seq<Sounding>, c: Criteria, i: nat): seq<Pair>
    requires i <= |sondes|
    decreases |sondes| - i
  {
    if i == |sondes| then []
    else Row(sondes, soundings, c, i, 0) + RowsFrom(sondes, soundings, c, i + 1)
  }

  /** Every pair in `r` indexes a sonde and a sounding that match. */
  predicate AllMatch(sondes: seq<SondeReport>, soundings: seq<Sounding>, c: Criteria, r: seq<Pair>) {
    forall k :: 0 <= k < |r| ==>
      r[k].sonde < |sondes| && r[k].sounding < |soundings| && IsMatch(sondes[r[k].sonde], soundings[r[k].sounding], c)
  }

  /** Every pair in `r` is for sonde `i` and a sounding at or after `j`. */
  predicate WithinRow(r: seq<Pair>, i: nat, j: nat) {
    forall k :: 0 <= k < |r| ==> r[k].sonde == i && j <= r[k].sounding
  }

  /** Every pair in `r` is for a sonde at or after `i`. */
  predicate FromSonde(r: seq<Pair>, i: nat) {
    forall k :: 0 <= k < |r| ==> i <= r[k].sonde
  }

  predicate SortedPairs(r: seq<Pair>) {
    forall k, l :: 0 <= k < l < |r| ==> Before(r[k], r[l])
  }

  /** The inner loop keeps only matching soundings of sonde `i`, from `j` on. */
  lemma {:induction false} RowSound(sondes: seq<SondeReport>, soundings: seq<Sounding>, c: Criteria, i: nat, j: nat)
    requires i < |sondes| && j <= |soundings|
    ensures AllMatch(sondes, soundings, c, Row(sondes, soundings, c, i, j))
    ensures WithinRow(Row(sondes, soundings, c, i, j), i, j)
    decreases |soundings| - j
  {
    if j < |soundings| {
      RowSound(sondes, soundings, c, i, j + 1);
      var rest := Row(sondes, soundings, c, i, j + 1);
      if IsMatch(sondes[i], soundings[j], c) {
        var r := [Pair(i, j)] + rest;
        assert Row(sondes, soundings, c, i, j) == r;
        assert forall k :: 1 <= k < |r| ==> r[k] == rest[k - 1];
      }
    }
  }

  /** The inner loop keeps every matching sounding of sonde `i` from `j` on. */
  lemma {:induction false} RowComplete(sondes: seq<SondeReport>, soundings: seq<Sounding>, c: Criteria, i: nat, j: nat)
    requires i < |sondes| && j <= |soundings|
    ensures forall jj :: j <= jj < |soundings| && IsMatch(sondes[i], soundings[jj], c) ==>
      Pair(i, jj) in Row(sondes, soundings, c, i, j)
    decreases |soundings| - j
  {
    if j < |soundings| {
      RowComplete(sondes, soundings, c, i, j + 1);
    }
  }

  /** The inner loop yields pairs in increasing order. */
  lemma {:induction false} RowSorted(sondes: seq<SondeReport>, soundings: seq<Sounding>, c: Criteria, i: nat, j: nat)
    requires i < |sondes| && j <= |soundings|
    ensures SortedPairs(Row(sondes, soundings, c, i, j))
    decreases |soundings| - j
  {
    if j < |soundings| {
      RowSorted(sondes, soundings, c, i, j + 1);
      RowSound(sondes, soundings, c, i, j + 1);
      var rest := Row(sondes, soundings, c, i, j + 1);
      if IsMatch(sondes[i], soundings[j], c) {
        var r := [Pair(i, j)] + rest;
        assert Row(sondes, soundings, c, i, j) == r;
        assert forall k :: 1 <= k < |r| ==> r[k] == rest[k - 1];
      }
    }
  }

  /** The outer loop keeps only matching pairs, of sondes `i..`. */
  lemma {:induction false} RowsFromSound(sondes: seq<SondeReport>, soundings: seq<Sounding>, c: Criteria, i: nat)
    requires i <= |sondes|
    ensures AllMatch(sondes, soundings, c, RowsFrom(sondes, soundings, c, i))
    ensures FromSonde(RowsFrom(sondes, soundings, c, i), i)
    decreases |sondes| - i
  {
    if i < |sondes| {
      RowSound(sondes, soundings, c, i, 0);
      RowsFromSound(sondes, soundings, c, i + 1);
      var row := Row(sondes, soundings, c, i, 0);
      var rest := RowsFrom(sondes, soundings, c, i + 1);
      var r := row + rest;
      assert RowsFrom(sondes, soundings, c, i) == r;
      assert forall k :: 0 <= k < |row| ==> r[k] == row[k];
      assert forall k :: |row| <= k < |r| ==> r[k] == rest[k - |row|];
    }
  }

  /** The outer loop keeps every matching pair of sondes `i..`. */
  lemma {:induction false} RowsFromComplete(sondes: seq<SondeReport>, soundings: seq<Sounding>, c: Criteria, i: nat)
    requires i <= |sondes|
    ensures forall ii, jj :: i <= ii < |sondes| && 0 <= jj < |soundings| && IsMatch(sondes[ii], soundings[jj], c) ==>
      Pair(ii, jj) in RowsFrom(sondes, soundings, c, i)
    decreases |sondes| - i
  {
    if i < |sondes| {
      RowComplete(sondes, soundings, c, i, 0);
      RowsFromComplete(sondes, soundings, c, i + 1);
    }
  }

  /** The outer loop yields pairs in sonde-major order. */
  lemma {:induction false} RowsFromSorted(sondes: seq<SondeReport>, soundings: seq<Sounding>, c: Criteria, i: nat)
    requires i <= |sondes|
    ensures SortedPairs(RowsFrom(sondes, soundings, c, i))
    decreases |sondes| - i
  {
    if i < |sondes| {
      RowSound(sondes, soundings, c, i, 0);
      RowSorted(sondes, soundings, c, i, 0);
      RowsFromSound(sondes, soundings, c, i + 1);
      RowsFromSorted(sondes, soundings, c, i + 1);
      var row := Row(sondes, soundings, c, i, 0);
      var rest := RowsFrom(sondes, soundings, c, i + 1);
      var r := row + rest;
      assert RowsFrom(sondes, soundings, c, i) == r;
      assert forall k :: 0 <= k < |row| ==> r[k] == row[k];
      assert forall k :: |row| <= k < |r| ==> r[k] == rest[k - |row|];
    }
  }

  /**
   * Every candidate pair, enumerated sonde-major: a pair appears iff it
   * matches, and the order is strictly increasing, so each appears once.
   */
  function Candidates(sondes: seq<SondeReport>, soundings: seq<Sounding>, c: Criteria): (r: seq<Pair>)
    ensures forall k :: 0 <= k < |r| ==> r[k].sonde < |sondes| && r[k].sounding < |soundings|
    ensures forall i, j :: 0 <= i < |sondes| && 0 <= j < |soundings| ==>
      (Pair(i, j) in r <==> IsMatch(sondes[i], soundings[j], c))
    ensures forall k, l :: 0 <= k < l < |r| ==> Before(r[k], r[l])
    ensures forall k, l :: 0 <= k < |r| && 0 <= l < |r| && r[k] == r[l] ==> k == l
  {
    RowsFromSound(sondes, soundings, c, 0);
    RowsFromComplete(sondes, soundings, c, 0);
    RowsFromSorted(sondes, soundings, c, 0);
    var r := RowsFrom(sondes, soundings, c, 0);
    assert forall k, l :: 0 <= k < |r| && 0 <= l < |r| && k != l ==> r[k] != r[l] by {
      forall k, l | 0 <= k < |r| && 0 <= l < |r| && k != l
        ensures r[k] != r[l]
      {
        if k < l { assert Before(r[k], r[l]); } else { assert Before(r[l], r[k]); }
      }
    }
    r
  }

  /**
   * Matching looks only at dates, hours and coordinates: soundings that agree
   * on those give the same candidates whatever their profiles hold.
   */
  lemma {:induction false} CandidatesIgnoreProfiles(sondes: seq<SondeReport>, a: seq<Sounding>, b: seq<Sounding>, c: Criteria)
    requires |a| == |b|
    requires forall j :: 0 <= j < |a| ==>
      a[j].date == b[j].date && a[j].hour == b[j].hour && a[j].latitude == b[j].latitude && a[j].longitude == b[j].longitude
    ensures Candidates(sondes, a, c) == Candidates(sondes, b, c)
  {
    RowsFromIgnoreProfiles(sondes, a, b, c, 0);
  }

  lemma {:induction false} RowsFromIgnoreProfiles(sondes: seq<SondeReport>, a: seq<Sounding>, b: seq<Sounding>, c: Criteria, i: nat)
    requires i <= |sondes| && |a| == |b|
    requires forall j :: 0 <= j < |a| ==>
      a[j].date == b[j].date && a[j].hour == b[j].hour && a[j].latitude == b[j].latitude && a[j].longitude == b[j].longitude
    ensures RowsFrom(sondes, a, c, i) == RowsFrom(sondes, b, c, i)
    decreases |sondes| - i
  {
    if i < |sondes| {
      RowIgnoresProfiles(sondes, a, b, c, i, 0);
      RowsFromIgnoreProfiles(sondes, a, b, c, i + 1);
    }
  }

  lemma {:induction false} RowIgnoresProfiles(sondes: seq<SondeReport>, a: seq<Sounding>, b: seq<Sounding>, c: Criteria, i: nat, j: nat)
    requires i < |sondes| && j <= |a| && |a| == |b|
    requires forall j :: 0 <= j < |a| ==>
      a[j].date == b[j].date && a[j].hour == b[j].hour && a[j].latitude == b[j].latitude && a[j].longitude == b[j].longitude
    ensures Row(sondes, a, c, i, j) == Row(sondes, b, c, i, j)
    decreases |a| - j
  {
    if j < |a| {
      RowIgnoresProfiles(sondes, a, b, c, i, j + 1);
      assert IsMatch(sondes[i], a[j], c) == IsMatch(sondes[i], b[j], c);
    }
  }
}
