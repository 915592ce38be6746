/** The records exchanged between the matcher, the harmoniser and the result store. */
module Records {
  import opened Wrappers

  /** A calendar day, as stored for each satellite sounding. */
  datatype Date = Date(year: int, month: int, day: int)

  /** A sonde launch time, parsed from `%Y/%m/%d %H:%M:%S+00`. */
  datatype DateTime = DateTime(year: int, month: int, day: int, hour: nat, minute: nat, second: nat)

  /**
   * One sonde report. The GeoJSON coordinates arrive as [longitude, latitude];
   * `dataBlock` is the raw comma-separated report, lines split by CR LF.
   */
  datatype SondeReport = SondeReport(launch: DateTime, longitude: real, latitude: real, dataBlock: string)

  /**
   * One quality-flagged satellite sounding. `hour` is the fractional UTC hour;
   * `kernel` is the averaging kernel, one row per pressure level.
   */
  datatype Sounding = Sounding(
    date: Date,
    hour: real,
    latitude: real,
    longitude: real,
    pressure: seq<real>,
    profile: seq<real>,
    apriori: seq<real>,
    kernel: seq<seq<real>>)

  /** A cleaned sonde profile: pressure (hPa) and ozone (partial pressure, later ppb). */
  datatype SondeProfile = SondeProfile(pressure: seq<real>, ozone: seq<real>)

  /**
   * Conditions that end the whole run with exit status 1: an unsupported unit
   * exits directly where the units are chosen, every other one through the
   * catch-all handler of `colocate`.
   */
  datatype Fatal =
    | UnsupportedUnits(units: string)
    | ShortSondeLine(line: nat)        // a report line lacks the pressure/ozone columns
    | TooFewSondeLevels                // fewer than two cleaned sonde pressures
    | SondeOzoneIndex                  // a kept pressure position has no ozone value
    | TooFewSatelliteLevels            // fewer than two satellite pressures
    | InterpolationFailed              // an interpolation or kernel error that is not a warning
    | NoTroposphereBand                // the band index was never assigned

  /** What happens to one candidate pair: a value, a skip, or the end of the run. */
  datatype PairStep<+T> = Done(value: T) | Skip | Abort
}
