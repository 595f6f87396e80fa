/**
 * Start-up of the exporter: the configuration checks that end the process
 * with a fatal error, and the first collection round that follows them.
 */
module Startup {
  import opened Wrappers
  import opened Metar
  import opened Metrics
  import opened Collector

  /** The command-line configuration as read by the flag parser. */
  datatype Flags = Flags(listen: string, stations: seq<string>, queryInterval: string)

  /** Why start-up stops, each a fatal error of the process. */
  datatype StartupError =
    | FlagError(msg: string)      // the flags could not be parsed
    | IntervalError(msg: string)  // the interval is not a duration
    | NoStations                  // no station was named

  /** A configuration that passed every start-up check; `interval` is the parsed query interval. */
  datatype Config = Config(listen: string, stations: seq<string>, interval: int)

  /** The station-list check: it rejects exactly the list holding one empty name. */
  predicate NoStationConfigured(stations: seq<string>): (rejected: bool)
    ensures rejected <==> stations == [""]
  {
    |stations| == 1 && stations[0] == ""
  }

  /** The empty list, and any list of two or more names, pass the check, even when a name is empty. */
  lemma StationListsThatPass(stations: seq<string>)
    requires |stations| == 0 || |stations| >= 2
    ensures !NoStationConfigured(stations)
  {
  }

  /**
   * The start-up checks in order: the flags, then the interval, then the
   * station list. `flags` is what the flag parser returned and
   * `parseDuration` the duration parser.
   */
  function Configure(flags: Result<Flags, string>, parseDuration: string -> Result<int, string>): (r: Result<Config, StartupError>)
    ensures r.Success? <==>
      && flags.Success?
      && parseDuration(flags.value.queryInterval).Success?
      && flags.value.stations != [""]
    ensures r.Success? ==>
      && r.value.stations == flags.value.stations
      && r.value.listen == flags.value.listen
      && r.value.interval == parseDuration(flags.value.queryInterval).value
    ensures flags.Failure? ==> r == Failure(FlagError(flags.error))
    ensures flags.Success? && parseDuration(flags.value.queryInterval).Failure? ==>
      r == Failure(IntervalError(parseDuration(flags.value.queryInterval).error))
    ensures flags.Success? && parseDuration(flags.value.queryInterval).Success? && flags.value.stations == [""] ==>
      r == Failure(NoStations)
  {
    match flags
    case Failure(e) => Failure(FlagError(e))
    case Success(f) =>
      match parseDuration(f.queryInterval)
      case Failure(e) => Failure(IntervalError(e))
      case Success(d) =>
        if NoStationConfigured(f.stations) then Failure(NoStations)
        else Success(Config(f.listen, f.stations, d))
  }

  /**
   * Start-up up to the first collection round: the gauges are registered
   * before the flags are read; once every check passes, every configured
   * station is collected once, `fetches[i]` being what the provider
   * returned for `stations[i]`.
   */
  method Boot(flags: Result<Flags, string>, parseDuration: string -> Result<int, string>, fetches: seq<Fetch>, units: Units)
    returns (reg: MetricRegistry, r: Result<Config, StartupError>)
    requires flags.Success? ==> |fetches| == |flags.value.stations|
    ensures fresh(reg) && reg.Valid() && reg.Registered()
    ensures reg.gauges == BuildAll(map[], Definitions)
    ensures r == Configure(flags, parseDuration)
    ensures r.Failure? ==> reg.values == map[]
    ensures r.Success? ==> reg.values == Round(map[], r.value.stations, fetches, units)
  {
    reg := new MetricRegistry();
    reg.RegisterMetrics();
    r := Configure(flags, parseDuration);
    if r.Success? {
      QueryMetrics(reg, r.value.stations, fetches, units);
    }
  }
}
