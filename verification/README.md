# py-sonde-comparison: a Dafny model of the colocation rules

`py_sonde_comparison` compares ozonesonde profiles from the WOUDC archive with
satellite ozone retrievals. Its `colocate` command works in these steps:

- brings the satellite profiles to parts per billion;
- matches every sonde launch against every satellite sounding by day, hour and distance;
- for each matched pair:
  - cleans the sonde's comma-separated data block;
  - puts both profiles in ascending pressure;
  - interpolates both profiles to a common 20-level pressure grid;
  - applies the retrieval's averaging kernel to the sonde;
  - keeps the pair when the difference at the last grid level is under 200%.

For every kept pair it records six values:

- the percent difference per level;
- the absolute difference per level;
- two troposphere column differences in Dobson units;
- the sounding's latitude;
- the launch time.

The troposphere slice starts at a grid index chosen from the latitude band.

This project models those rules as pure Dafny functions over immutable data,
with one method for each of the two loops (sonde-line cleaning and the pair
loop). It proves what the rules guarantee. It also models two helpers of
`cli.py`, each on a case that `colocate` itself never reaches:

- the linear branch of the sensitivity operator `convert_sensitivity`,
  H(x) = xa + A(x − xa) (line 93). `colocate` calls the operator without
  `AK_Log` (line 339), so it always takes the default logarithmic branch
  (`AK_Log=True`, line 82; lines 91 and 100); inside the run the sensitivity
  step is part of the parameter `Harmonise`;
- the Dobson-unit column integration `convert_ppm_to_du` on strictly
  decreasing pressure. `colocate` calls it on ascending grid slices, so inside
  the run the two troposphere columns come from the parameter `ColumnFn`.

Modules:

| file | module | what |
|---|---|---|
| wrappers.dfy | `Wrappers` | `Option`, `Result` |
| seqs.dfy | `Seqs` | `Abs`, `Reverse` (numpy `flip`), monotonicity |
| text.dfy | `Text` | Python's `str.split` and `Join`, which undoes it |
| records.dfy | `Records` | sonde reports, soundings, fatal conditions |
| units.dfy | `Units` | the `ozone_units` scaling |
| matching.dfy | `Matching` | the day/hour/distance matcher and its visiting order |
| cleaning.dfy | `SondeCleaning` | the data-block reading loop |
| orientation.dfy | `Orientation` | sonde orientation, positivity filter, ppb conversion, satellite orientation |
| sensitivity.dfy | `Sensitivity` | H(x) = xa + A(x − xa) |
| column.dfy | `Column` | `convert_ppm_to_du` |
| screening.dfy | `Screening` | the grid, the troposphere band, the 200% screen, the result lists |
| colocate.dfy | `Colocation` | one pair, the pair loop, the whole run |

## How the model treats the source's behaviour

**Errors and warnings.**

- `cli.py` turns every `RuntimeWarning` into an exception (line 13).
- Inside the pair's `try` (lines 328-371), a warning skips the pair. The
  division `(sat − H)/H` warns exactly when some level of H is zero, so the
  screen (`Screening.Screen`) skips such pairs.
- An unsupported unit ends the run with exit status 1 directly, at line 239;
  the `SystemExit` it raises is not an `Exception`, so the handler at line 387
  does not see it.
- Any other exception reaches the catch-all handler of `colocate` (line 387)
  and ends the run with the same exit status 1. The model returns `Failure`
  with a `Fatal` value for each case that ends the run:
  - an unsupported unit;
  - a sonde line too short for the ozone column;
  - fewer than two cleaned sonde pressures;
  - a kept sonde position past the end of the ozone list;
  - a sounding with fewer than two levels;
  - an interpolation error;
  - a band index that was never assigned.

**The band index `end`.**

- `end` is a local of the whole command. A pair whose latitude picks no band
  reuses the index of an earlier kept pair.
- If no earlier kept pair assigned one, reading `end` raises and the run ends.
- The polar test `lat < -60.0 and lat > 60.0` (line 357) can never hold. The
  model keeps it as written, so no latitude at or beyond 60 degrees picks a band.

**Cleaning the sonde block.**

- Each line's ozone value is appended before its pressure is parsed (lines
  289-290). A line whose pressure fails after its ozone parsed leaves the
  ozone list one longer than the pressure list.
- The failure count is never reset. At the fifth failure the loop stops
  (line 295): it keeps the lists built so far and goes on with the pair,
  although the log message says the sonde is skipped.

**Where the code and its description disagree.** The model follows the code.

- The band comments (lines 347-350) speak of 150, 200, 300 and 400 hPa.
- The indices 11, 12, 14 and 15 of the 20-level grid at line 247 are 500, 600,
  800 and 850 hPa.

## Model

| member | source | states |
|---|---|---|
| Units.UnitScale | py_sonde_comparison/cli.py:226-239 | the factor exists exactly for `None`, `ppb` and `ppm`, is positive: 1e9 for `None` (a fraction), 1 for `ppb`, 1000 for `ppm`; any other choice is the unit error |
| Units.ScaleSounding | py_sonde_comparison/cli.py:228-235 | only the profile and apriori are multiplied, entry by entry; date, hour, position, pressure and kernel are kept |
| Units.ScaleSoundings | py_sonde_comparison/cli.py:226-239 | fails with the unit error exactly when the units are unsupported; otherwise every sounding is scaled by the one factor |
| Units.ScaleInverse | py_sonde_comparison/cli.py:228-235 | scaling by a positive factor is undone by its inverse |
| Units.PpbUnchanged | py_sonde_comparison/cli.py:230-232 | `ppb` leaves every sounding as it was |
| Units.ScalingKeepsCandidates | py_sonde_comparison/cli.py:226-269 | the scaled soundings give the same candidate pairs as the raw ones |
| Text.Split | py_sonde_comparison/cli.py:272 | the parts joined by the separator give back the string; there is at least one part; a string shorter than the separator is one part |
| Text.SplitFree | py_sonde_comparison/cli.py:272 | a string without the one-character separator splits into itself |
| Text.SplitFirst | py_sonde_comparison/cli.py:277 | the first part of `a`, separator, rest is `a` when `a` holds no separator |
| Matching.RowSound | py_sonde_comparison/cli.py:262-269 | every pair the inner loop yields for one sonde matches and lies in that sonde's row from the start sounding |
| Matching.RowComplete | py_sonde_comparison/cli.py:262-269 | every matching sounding from the start sounding on is in the inner loop's list |
| Matching.RowSorted | py_sonde_comparison/cli.py:262-269 | the inner loop yields soundings in increasing order |
| Matching.RowsFromSound | py_sonde_comparison/cli.py:260-269 | every pair of the outer loop from sonde i on matches and has a sonde index of at least i |
| Matching.RowsFromComplete | py_sonde_comparison/cli.py:260-269 | every matching pair with sonde index from i on is visited |
| Matching.RowsFromSorted | py_sonde_comparison/cli.py:260-269 | the outer loop visits pairs in strictly increasing sonde-major order |
| Matching.Candidates | py_sonde_comparison/cli.py:260-269 | a pair is a candidate iff same day, whole launch hour within `distance_time` of the sounding hour, and distance at most `distance_location`; sonde-major order; no pair twice |
| Matching.CandidatesIgnoreProfiles | py_sonde_comparison/cli.py:260-269 | candidates depend only on dates, hours and coordinates, not on profiles |
| Matching.RowsFromIgnoreProfiles | py_sonde_comparison/cli.py:260-269 | the outer loop's pairs do not depend on profiles |
| Matching.RowIgnoresProfiles | py_sonde_comparison/cli.py:262-269 | the inner loop's pairs do not depend on profiles |
| SondeCleaning.PressureColumnByFirstField | py_sonde_comparison/cli.py:277-280 | a header whose first comma-separated field is `Duration` reads pressure from column 1; any other first field, with or without more fields after it, gives column 0 |
| SondeCleaning.ReadLine | py_sonde_comparison/cli.py:288-291 | a line is too short iff it has at most `col + 1` fields; ozone is parsed before pressure, and a line whose pressure fails after its ozone parsed keeps the ozone value |
| SondeCleaning.OzoneOutgrowsPressure | py_sonde_comparison/cli.py:289-290 | the ozone list is longer than the pressure list by the number of half-parsed lines |
| SondeCleaning.Scan | py_sonde_comparison/cli.py:284-297 | the loop runs to the last line with fewer than five failures in all, stops right after the failed line that brings the count to five, or stops at the first line too short to hold the ozone column, no earlier line being short |
| SondeCleaning.ScanOutcome | py_sonde_comparison/cli.py:284-297 | at the stopping point, the lists are those of the lines read; failures stay within the limit; stopping early means five failures; a short line is reported only when no earlier line was short and the limit was not reached |
| SondeCleaning.CleanFromScan | py_sonde_comparison/cli.py:284-297 | the line-by-line loop ends exactly where `Scan` says, with the lists `Summary` gives |
| SondeCleaning.CleanBlockOutcome | py_sonde_comparison/cli.py:272-297 | cleaning a block returns the lists of the lines it read, or the first short line |
| SondeCleaning.ReadLines | py_sonde_comparison/cli.py:284-297 | the imperative loop computes the reference cleaning of the lines |
| SondeCleaning.CleanDataBlock | py_sonde_comparison/cli.py:272-297 | at most five failures; an early stop exactly at five; ozone at least as long as pressure; the only failure is a short line |
| Seqs.ReverseReverse | py_sonde_comparison/cli.py:301 | reversing twice gives the list back |
| Orientation.PositiveUpToSound | py_sonde_comparison/cli.py:302 | every kept position holds a positive pressure |
| Orientation.PositiveUpToIncreasing | py_sonde_comparison/cli.py:302 | kept positions increase |
| Orientation.PositiveUpToComplete | py_sonde_comparison/cli.py:302 | every positive pressure is kept |
| Orientation.PositiveIndices | py_sonde_comparison/cli.py:302-306 | `np.where(p > 0)`: exactly the positions of positive pressures, in increasing order |
| Orientation.PickPositive | py_sonde_comparison/cli.py:302-307 | indexing by those positions equals filtering the positive pressures |
| Orientation.NormaliseSonde | py_sonde_comparison/cli.py:300-307 | fewer than two pressures is fatal; with at least as many ozone values as pressures it succeeds; the result pairs equal-length lists of positive pressures (which ozone value each gets: `NormaliseOzone`) |
| Orientation.NormaliseOzone | py_sonde_comparison/cli.py:300-307 | the profile is built from one sequence of pressure lines: level k is line m_k's positive pressure p[m_k] with ozone v[m_k] when kept as recorded, or v[m_k + d] when reversed (d = how much longer the ozone list is); the lines run down the file when kept as recorded and up it when reversed, and every line with a positive pressure is used |
| Orientation.LinesOfUnique | py_sonde_comparison/cli.py:300-307 | those conditions admit one line sequence and one profile, so they determine the normalised profile, ozone order included, even where pressures repeat |
| Orientation.NormaliseRepeatedPressure | py_sonde_comparison/cli.py:300-307 | a profile recorded surface first with a repeated pressure, (p0,v0),(p1,v1),(p1,v2),(p3,v3), normalises to p3,p1,p1,p0 with v3,v2,v1,v0: the tie is broken by reversed line order |
| Orientation.NormaliseFilters | py_sonde_comparison/cli.py:300-307 | the kept pressures are the positive entries of the oriented list, in order |
| Orientation.PickIncreasing | py_sonde_comparison/cli.py:302-307 | picking increasing positions of an increasing list gives an increasing list |
| Orientation.NormaliseAscending | py_sonde_comparison/cli.py:300-307 | a sonde recorded surface-first comes out in strictly increasing pressure |
| Orientation.NormaliseKeepsPairs | py_sonde_comparison/cli.py:300-307 | with equal-length lists, level k holds the pressure and the ozone value of the same input line m_k, the m_k being the line sequence of `NormaliseOzone` |
| Orientation.NormaliseMisalignsLongOzone | py_sonde_comparison/cli.py:300-303 | two lines recorded surface first followed by a lone ozone value: after the reversal each pressure takes the ozone value one position later, so neither pair is from one line |
| Orientation.NormaliseMisalignsUnreversed | py_sonde_comparison/cli.py:300-307 | two lines kept as recorded with a half-parsed line between them: the second pressure takes the half-parsed line's ozone value |
| Orientation.VmrRoundTrip | py_sonde_comparison/cli.py:309 | the ppb conversion is undone by multiplying by the pressure and dividing by 10000 |
| Orientation.VmrSign | py_sonde_comparison/cli.py:309 | the ratio is positive or zero exactly when the partial pressure is |
| Orientation.FlipBothSquare | py_sonde_comparison/cli.py:318 | entry (i, j) is entry (n-1-i, n-1-j) |
| Orientation.FlipBothTwice | py_sonde_comparison/cli.py:318 | flipping twice gives the kernel back |
| Orientation.OrientSounding | py_sonde_comparison/cli.py:314-323 | fewer than two levels is fatal, and that is its only failure; a surface-first sounding has pressure, profile, apriori reversed and kernel flipped; otherwise it is unchanged; position and time are kept |
| Orientation.OrientAscending | py_sonde_comparison/cli.py:314-323 | a strictly monotone sounding comes out in strictly increasing pressure |
| Orientation.OrientIdempotent | py_sonde_comparison/cli.py:314-323 | orienting a strictly monotone sounding twice is orienting it once |
| Orientation.OrientNotIdempotentUnsorted | py_sonde_comparison/cli.py:314-317 | only the first two levels decide; pressures 3, 1, 2 flip to 2, 1, 3 and flip back |
| Sensitivity.IdentityKernel | py_sonde_comparison/cli.py:93 | an identity kernel returns the model profile |
| Sensitivity.ZeroKernel | py_sonde_comparison/cli.py:93 | a zero kernel returns the apriori |
| Sensitivity.AprioriFixed | py_sonde_comparison/cli.py:93 | the apriori is a fixed point for every kernel |
| Sensitivity.Affine | py_sonde_comparison/cli.py:93 | two outputs differ by the kernel applied to the inputs' difference |
| Column.InterpAtSample | py_sonde_comparison/cli.py:128 | `np.interp` passes through every sample point |
| Column.InterpHalfway | py_sonde_comparison/cli.py:128 | halfway between two samples it gives their mean |
| Column.Midpoints | py_sonde_comparison/cli.py:123-125 | one midpoint per layer, the mean of the layer's two bounding pressures |
| Column.MidpointsBetween | py_sonde_comparison/cli.py:123-125 | each midpoint lies strictly inside its layer |
| Column.MidpointVmrIsMean | py_sonde_comparison/cli.py:127-130 | the flipped interpolation gives each layer the mean of its two bounding ratios |
| Column.LayerDuProduct | py_sonde_comparison/cli.py:131-133 | a layer's DU is ratio × thickness × one positive constant |
| Column.ColumnIsTrapezoid | py_sonde_comparison/cli.py:114-138 | the column is the trapezoid rule of the ratio over pressure |
| Column.ColumnSingleLevel | py_sonde_comparison/cli.py:123-138 | one level gives a zero column |
| Column.ColumnZero | py_sonde_comparison/cli.py:114-138 | a zero profile gives a zero column |
| Column.ColumnConstant | py_sonde_comparison/cli.py:114-138 | a constant ratio gives that ratio over the whole thickness, as one layer would |
| Column.ColumnNonnegative | py_sonde_comparison/cli.py:114-138 | non-negative ratios give a non-negative column |
| Screening.GridShape | py_sonde_comparison/cli.py:247 | the grid has 20 strictly increasing levels |
| Screening.TroposphereBand | py_sonde_comparison/cli.py:351-358 | index 11 for latitudes under 15 in size, 12 from 15 to under 30, 14 from 30 to under 60, none from 60 on |
| Screening.NoPolarBand | py_sonde_comparison/cli.py:357-358 | the polar index is never chosen |
| Screening.BandLevels | py_sonde_comparison/cli.py:351-356 | the chosen slices start at 500, 600 and 800 hPa |
| Screening.Screen | py_sonde_comparison/cli.py:342-344 | skipped iff a sonde level is zero; kept iff the last level's percent difference is under 200 in size; percent × H = 100 × (sat − H) and absolute = (sat − H) × 1e9 per level |
| Screening.ScreenRejectsAtLimit | py_sonde_comparison/cli.py:342 | exactly 200% is rejected |
| Screening.ScreenAcceptsAgreement | py_sonde_comparison/cli.py:342-344 | equal profiles are kept with zero differences |
| Screening.Record | py_sonde_comparison/cli.py:342-364 | a screened-out pair changes nothing; a kept pair adds one entry to every list with its differences, latitude and launch time, and with the column function's values on the grid, relative difference and ppm difference sliced from the band's level; the band is the latitude's, or the previous one for a polar pair; it fails iff no band is chosen and none was assigned before |
| Screening.RecordAfterBand | py_sonde_comparison/cli.py:351-362 | once a band is assigned, recording never fails |
| Colocation.ProcessPair | py_sonde_comparison/cli.py:272-371 | a fatal condition met before harmonising ends the run with that condition (a short sonde line among them); an interpolation error ends it; a warning skips the pair; a harmonised pair that the screen does not accept leaves the store unchanged, and an accepted one appends one entry holding the screen's two difference profiles, failing iff no band is chosen and none was assigned before; in every case the lists stay balanced and gain at most one entry with the sounding's latitude and the launch time, and no unit error arises |
| Colocation.ProcessCleaned | py_sonde_comparison/cli.py:298-364 | from the cleaned lists on, the same outcomes as `ProcessPair` for the harmonisation of the cleaned lists: fatal conditions passed on, an interpolation error ends the run, a warning skips, a harmonised pair is screened into the lists (unchanged unless accepted; one entry with the screen's profiles if accepted); fewer than two sonde pressures fail the run; no unit error and no short-line error can arise here |
| Colocation.RecordStep | py_sonde_comparison/cli.py:326-389 | an interpolation error ends the run and only it gives that error; a warning skips the pair; a harmonised pair that the screen does not accept leaves the store unchanged, and an accepted one appends one entry whose percent and absolute profiles are the screen's, failing iff no band is chosen and none was assigned before |
| Colocation.RunColocation | py_sonde_comparison/cli.py:226-371 | the pair loop computes the run |
| Colocation.RunBalanced | py_sonde_comparison/cli.py:343-364 | the six lists stay the same length |
| Colocation.RunCount | py_sonde_comparison/cli.py:260-371 | each remaining pair adds at most one entry |
| Colocation.RunErrors | py_sonde_comparison/cli.py:272-371 | the pair loop never ends with a unit error |
| Colocation.RunTraced | py_sonde_comparison/cli.py:343-364 | every entry carries the latitude and launch time of one of the pairs |
| Colocation.ColocateUnits | py_sonde_comparison/cli.py:226-239 | the run ends with the unit error iff the units are unsupported |
| Colocation.ColocateBalanced | py_sonde_comparison/cli.py:343-364 | a completed run has six lists of one length |
| Colocation.ColocateCount | py_sonde_comparison/cli.py:260-371 | no more entries than matching pairs |
| Colocation.PairCount | py_sonde_comparison/cli.py:328-371 | a pair processed without ending the run adds an entry exactly when it is harmonised and accepted by the screen |
| Colocation.RunAccepted | py_sonde_comparison/cli.py:260-371 | a completed run adds exactly one entry per accepted pair |
| Colocation.ColocateAccepted | py_sonde_comparison/cli.py:226-371 | a completed colocation has exactly as many entries as there are candidate pairs that are harmonised and accepted |
| Colocation.ColocateTraced | py_sonde_comparison/cli.py:260-364 | each recorded latitude and time belongs to a sonde and a sounding that match |
| Colocation.NoMatchesNoResults | py_sonde_comparison/cli.py:260-269 | with supported units and no match, the run completes with empty lists |

## Left out

- Reading the satellite product (`read_product`), fetching sondes from WOUDC (`grab_woudc`), plotting (`plot_results`), logging, and writing the `.npz` file. These are I/O. The model starts from the sounding list and the sonde reports.
- The `.npz` cache test that skips the whole colocation (line 258). It is a file-system check, and the model always runs the colocation.
- The click option parsing. `ozone_units` is taken as a plain string. The click choice list would keep the unsupported-unit branch from being reached from the command line.
- The haversine `distance`. It is a parameter of the matching criteria.
- Python's `float()` on a field. It is a parameter `Parse` that gives no value where `float()` raises `ValueError`.
- SciPy `interp1d`/`interp2d` to the grid, and the call of `convert_sensitivity` (lines 329-339). Together they are a parameter `Harmonise`.
  - A warning on the way skips the pair.
  - An error ends the run.
- The logarithmic branch of `convert_sensitivity` (lines 90-91, 99-100). It needs `exp` and `log`, and its retry after a warning repeats the same computation. It is the only branch `colocate`'s own call (line 339, default `AK_Log=True` at line 82) ever takes. Only the linear branch (line 93), which `colocate` never reaches, is modelled.
- `convert_ppm_to_du` as `colocate` calls it. `colocate` passes ascending grid slices, so `np.interp` receives decreasing sample points, outside the domain where numpy defines its result. The two troposphere columns of a run therefore come from a parameter `ColumnFn` that the model leaves unconstrained. `Column` models the function on strictly decreasing pressure, a domain `colocate` never calls it with.
- Sensitivity.LinearSensitivity: requires a square kernel of the profile's size. numpy raises or broadcasts on other shapes, and the model leaves those out.
- Column.ColumnDu: requires at least one level and strictly decreasing pressure. Empty input, where `np.interp` raises and the function exits, is left out. Non-monotone input is left out too.
- Orientation.ToVmr: requires positive pressures. The filter before it guarantees this in the source.
- Text.Split: states that the parts join back to the string, but not in general that no part contains the separator. `SplitFree` and `SplitFirst` state what the header test needs for a one-character separator.
- Floating point. Reals stand in for doubles, so rounding, overflow and NaN are not modelled. The only warnings modelled are the zero divisions of the screen.
- Time parsing of `instance_datetime` (`strptime`). The launch time is a record given with the report.
