/**
 * The in-memory metric registry: eleven gauges, each labelled by station,
 * whose current values are overwritten by the collector.
 */
module Metrics {
  import opened Wrappers

  const Subsystem: string := "metar"
  const StationLabel: string := "station"
  const LabelNames: seq<string> := [StationLabel]

  const Temperature: string := "temperature"
  const QuerySuccess: string := "query_success"
  const FetchTime: string := "fetch_time"
  const ObservationTime: string := "observation_time"
  const Dewpoint: string := "dewpoint"
  const WindDirection: string := "wind_direction"
  const WindSpeed: string := "wind_speed"
  const Visibility: string := "visibility"
  const Altimeter: string := "altimeter"
  const SkyCover: string := "skycover"
  const WindForce: string := "wind_force"

  const TemperatureHelp: string := "Air temperature (celsius)"
  const QuerySuccessHelp: string := "Indicates whether the last fetch was a success (0/1)"
  const ObservationTimeHelp: string := "Contains the observation time of the current data reported by the station (UTC)"
  const DewpointHelp: string := "Dewpoint temperature (celsius)"
  const WindDirectionHelp: string := "Direction from which the wind is blowing. 0 degrees=variable wind direction."
  const WindSpeedHelp: string := "Wind speed; 0 degree wdir and 0 wspd = calm winds (km/h)"
  const VisibilityHelp: string := "Horizontal visibility (km)"
  const AltimeterHelp: string := "Altimeter (hPa)"
  const SkyCoverHelp: string := "Sky cover in % (0 = clear, 1 = full cover)"
  const FetchTimeHelp: string := "Contains the timestamp of the last successful fetch"
  const WindForceHelp: string := "Wind force in Beaufort wind force scale"

  /** The gauges declared at startup, in declaration order, with their help texts. */
  const Definitions: seq<(string, string)> := [
    (Temperature, TemperatureHelp),
    (QuerySuccess, QuerySuccessHelp),
    (ObservationTime, ObservationTimeHelp),
    (Dewpoint, DewpointHelp),
    (WindDirection, WindDirectionHelp),
    (WindSpeed, WindSpeedHelp),
    (Visibility, VisibilityHelp),
    (Altimeter, AltimeterHelp),
    (SkyCover, SkyCoverHelp),
    (FetchTime, FetchTimeHelp),
    (WindForce, WindForceHelp)
  ]

  /** The eleven metric names. */
  const MetricNames: set<string> := {
    Temperature, QuerySuccess, ObservationTime, Dewpoint, WindDirection, WindSpeed,
    Visibility, Altimeter, SkyCover, FetchTime, WindForce
  }

  // ---------------------------------------------------------------------------
  // Registration

  /** The options a gauge is declared with. */
  datatype GaugeOpts = GaugeOpts(subsystem: string, name: string, help: string, labelNames: seq<string>)

  /** Registered gauges by metric name. */
  type Gauges = map<string, GaugeOpts>

  /** Every registered gauge sits under its own name, in the exporter's subsystem, labelled by station. */
  predicate WellFormed(g: Gauges)
  {
    forall n | n in g :: g[n] == GaugeOpts(Subsystem, n, g[n].help, LabelNames)
  }

  /**
   * The gauges after declaring `name`: a name that is already registered
   * keeps the gauge it has, with its help text and its current values.
   */
  function Build(g: Gauges, name: string, help: string): (r: Gauges)
    ensures r.Keys == g.Keys + {name}
  {
    if name in g then g else g[name := GaugeOpts(Subsystem, name, help, LabelNames)]
  }

  /** The gauges after declaring each of `defs` in turn. */
  function BuildAll(g: Gauges, defs: seq<(string, string)>): (r: Gauges)
    ensures g.Keys <= r.Keys
    decreases |defs|
  {
    if defs == [] then g else BuildAll(Build(g, defs[0].0, defs[0].1), defs[1..])
  }

  /** Declaring the remaining list from position `k` declares `defs[k]` first, then the rest. */
  lemma BuildAllStep(g: Gauges, defs: seq<(string, string)>, k: nat)
    requires k < |defs|
    ensures BuildAll(g, defs[k..]) == BuildAll(Build(g, defs[k].0, defs[k].1), defs[k + 1..])
  {
    assert defs[k..][1..] == defs[k + 1..];
  }

  /** The names `defs` declares. */
  function DeclaredNames(defs: seq<(string, string)>): set<string>
  {
    set i | 0 <= i < |defs| :: defs[i].0
  }

  /** The names of a non-empty list are its first name and the names of the rest. */
  lemma DeclaredNamesCons(defs: seq<(string, string)>)
    requires defs != []
    ensures DeclaredNames(defs) == {defs[0].0} + DeclaredNames(defs[1..])
  {
    forall n | n in DeclaredNames(defs) ensures n in {defs[0].0} + DeclaredNames(defs[1..]) {
      var i :| 0 <= i < |defs| && defs[i].0 == n;
      if i > 0 { assert defs[1..][i - 1].0 == n; }
    }
    forall n | n in DeclaredNames(defs[1..]) ensures n in DeclaredNames(defs) {
      var i :| 0 <= i < |defs[1..]| && defs[1..][i].0 == n;
      assert defs[i + 1].0 == n;
    }
  }

  /** Declaring a list adds exactly its names. */
  lemma {:induction false} BuildAllKeys(g: Gauges, defs: seq<(string, string)>)
    ensures BuildAll(g, defs).Keys == g.Keys + DeclaredNames(defs)
    decreases |defs|
  {
    if defs != [] {
      BuildAllKeys(Build(g, defs[0].0, defs[0].1), defs[1..]);
      DeclaredNamesCons(defs);
    }
  }

  /** A gauge that is already registered is never replaced. */
  lemma {:induction false} BuildAllKeeps(g: Gauges, defs: seq<(string, string)>, name: string)
    requires name in g
    ensures name in BuildAll(g, defs) && BuildAll(g, defs)[name] == g[name]
    decreases |defs|
  {
    if defs != [] {
      BuildAllKeeps(Build(g, defs[0].0, defs[0].1), defs[1..], name);
    }
  }

  /** Declaration keeps every gauge labelled by station under its own name. */
  lemma {:induction false} BuildAllWellFormed(g: Gauges, defs: seq<(string, string)>)
    requires WellFormed(g)
    ensures WellFormed(BuildAll(g, defs))
    decreases |defs|
  {
    if defs != [] {
      BuildAllWellFormed(Build(g, defs[0].0, defs[0].1), defs[1..]);
    }
  }

  /** The first declaration of a new name decides its help text. */
  lemma {:induction false} BuildAllFirstHelp(g: Gauges, defs: seq<(string, string)>, i: nat)
    requires i < |defs| && defs[i].0 !in g
    requires forall j | 0 <= j < i :: defs[j].0 != defs[i].0
    ensures defs[i].0 in BuildAll(g, defs) && BuildAll(g, defs)[defs[i].0].help == defs[i].1
    decreases |defs|
  {
    var g' := Build(g, defs[0].0, defs[0].1);
    if i == 0 {
      BuildAllKeeps(g', defs[1..], defs[0].0);
    } else {
      assert defs[1..][i - 1] == defs[i];
      BuildAllFirstHelp(g', defs[1..], i - 1);
    }
  }

  /** Declaring names that are all registered already changes nothing. */
  lemma {:induction false} BuildAllRegistered(g: Gauges, defs: seq<(string, string)>)
    requires DeclaredNames(defs) <= g.Keys
    ensures BuildAll(g, defs) == g
    decreases |defs|
  {
    if defs != [] {
      DeclaredNamesCons(defs);
      BuildAllRegistered(g, defs[1..]);
    }
  }

  /** Declaring the same list twice is the same as declaring it once. */
  lemma BuildAllIdempotent(g: Gauges, defs: seq<(string, string)>)
    ensures BuildAll(BuildAll(g, defs), defs) == BuildAll(g, defs)
  {
    BuildAllKeys(g, defs);
    BuildAllRegistered(BuildAll(g, defs), defs);
  }

  /** The startup declarations name exactly the eleven metrics. */
  lemma DefinitionsNames()
    ensures DeclaredNames(Definitions) == MetricNames
  {
    assert Definitions[0].0 == Temperature && Definitions[1].0 == QuerySuccess;
    assert Definitions[2].0 == ObservationTime && Definitions[3].0 == Dewpoint;
    assert Definitions[4].0 == WindDirection && Definitions[5].0 == WindSpeed;
    assert Definitions[6].0 == Visibility && Definitions[7].0 == Altimeter;
    assert Definitions[8].0 == SkyCover && Definitions[9].0 == FetchTime;
    assert Definitions[10].0 == WindForce;
  }

  /** The startup declarations name eleven different metrics. */
  lemma DefinitionsDistinct()
    ensures forall i, j | 0 <= i < j < |Definitions| :: Definitions[i].0 != Definitions[j].0
  {
  }

  /** The first six startup declarations, one after another. */
  function FirstSix(g: Gauges): Gauges
  {
    Build(Build(Build(Build(Build(Build(g,
      Temperature, TemperatureHelp),
      QuerySuccess, QuerySuccessHelp),
      ObservationTime, ObservationTimeHelp),
      Dewpoint, DewpointHelp),
      WindDirection, WindDirectionHelp),
      WindSpeed, WindSpeedHelp)
  }

  /** The last five startup declarations, one after another. */
  function LastFive(g: Gauges): Gauges
  {
    Build(Build(Build(Build(Build(g,
      Visibility, VisibilityHelp),
      Altimeter, AltimeterHelp),
      SkyCover, SkyCoverHelp),
      FetchTime, FetchTimeHelp),
      WindForce, WindForceHelp)
  }

  /** Declaring the startup list starts with its first six declarations. */
  lemma RegistrationFirstSix(g: Gauges)
    ensures BuildAll(g, Definitions) == BuildAll(FirstSix(g), Definitions[6..])
  {
    assert Definitions[0..] == Definitions;
    var g1 := Build(g, Temperature, TemperatureHelp);
    BuildAllStep(g, Definitions, 0);
    var g2 := Build(g1, QuerySuccess, QuerySuccessHelp);
    BuildAllStep(g1, Definitions, 1);
    var g3 := Build(g2, ObservationTime, ObservationTimeHelp);
    BuildAllStep(g2, Definitions, 2);
    var g4 := Build(g3, Dewpoint, DewpointHelp);
    BuildAllStep(g3, Definitions, 3);
    var g5 := Build(g4, WindDirection, WindDirectionHelp);
    BuildAllStep(g4, Definitions, 4);
    BuildAllStep(g5, Definitions, 5);
  }

  /** Declaring the rest of the startup list is its last five declarations. */
  lemma RegistrationLastFive(g: Gauges)
    ensures BuildAll(g, Definitions[6..]) == LastFive(g)
  {
    var g7 := Build(g, Visibility, VisibilityHelp);
    BuildAllStep(g, Definitions, 6);
    var g8 := Build(g7, Altimeter, AltimeterHelp);
    BuildAllStep(g7, Definitions, 7);
    var g9 := Build(g8, SkyCover, SkyCoverHelp);
    BuildAllStep(g8, Definitions, 8);
    var g10 := Build(g9, FetchTime, FetchTimeHelp);
    BuildAllStep(g9, Definitions, 9);
    BuildAllStep(g10, Definitions, 10);
  }

  /**
   * Declaring the startup gauges in an empty registry registers exactly the
   * eleven metric names, each labelled by station and carrying its help text.
   */
  lemma RegisterFromEmpty()
    ensures BuildAll(map[], Definitions).Keys == MetricNames
    ensures WellFormed(BuildAll(map[], Definitions))
    ensures forall i | 0 <= i < |Definitions| ::
      BuildAll(map[], Definitions)[Definitions[i].0].help == Definitions[i].1
  {
    BuildAllKeys(map[], Definitions);
    DefinitionsNames();
    BuildAllWellFormed(map[], Definitions);
    DefinitionsDistinct();
    forall i | 0 <= i < |Definitions|
      ensures BuildAll(map[], Definitions)[Definitions[i].0].help == Definitions[i].1
    {
      BuildAllFirstHelp(map[], Definitions, i);
    }
  }

  // ---------------------------------------------------------------------------
  // Gauge values

  /** A gauge value is addressed by metric name and station label. */
  datatype Key = Key(metric: string, station: string)

  /** The current value under `k`, if any. */
  function Lookup(v: map<Key, real>, k: Key): Option<real>
  {
    if k in v then Some(v[k]) else None
  }

  // ---------------------------------------------------------------------------
  /** Every value is labelled with the name of a registered gauge. */
  predicate ValuesRegistered(v: map<Key, real>, g: Gauges)
  {
    forall k | k in v :: k.metric in g
  }

  // The registry object

  /**
   * The process-wide metric registry: the registered gauges and, for every
   * (metric, station) pair that has been set, its current value.
   */
  class MetricRegistry {
    var gauges: Gauges
    var values: map<Key, real>

    /** Gauges are well formed and every value belongs to a registered gauge. */
    ghost predicate Valid()
      reads this
    {
      && WellFormed(gauges)
      && ValuesRegistered(values, gauges)
    }

    /** Every one of the eleven gauges has been registered. */
    predicate Registered()
      reads this
    {
      MetricNames <= gauges.Keys
    }

    constructor ()
      ensures Valid()
      ensures gauges == map[] && values == map[]
    {
      gauges := map[];
      values := map[];
    }

    /** Declares one gauge, or keeps the gauge already registered under that name. */
    method BuildMetric(name: string, help: string)
      requires Valid()
      modifies this
      ensures Valid()
      ensures gauges == Build(old(gauges), name, help)
      ensures values == old(values)
    {
      gauges := Build(gauges, name, help);
    }

    /** Declares the eleven gauges of the exporter. */
    method RegisterMetrics()
      requires Valid()
      modifies this
      ensures Valid() && Registered()
      ensures gauges == BuildAll(old(gauges), Definitions)
      ensures values == old(values)
    {
      ghost var g0 := gauges;
      RegistrationFirstSix(g0);
      RegistrationLastFive(FirstSix(g0));
      BuildMetric(Temperature, TemperatureHelp);
      BuildMetric(QuerySuccess, QuerySuccessHelp);
      BuildMetric(ObservationTime, ObservationTimeHelp);
      BuildMetric(Dewpoint, DewpointHelp);
      BuildMetric(WindDirection, WindDirectionHelp);
      BuildMetric(WindSpeed, WindSpeedHelp);
      BuildMetric(Visibility, VisibilityHelp);
      BuildMetric(Altimeter, AltimeterHelp);
      BuildMetric(SkyCover, SkyCoverHelp);
      BuildMetric(FetchTime, FetchTimeHelp);
      BuildMetric(WindForce, WindForceHelp);
      BuildAllKeys(g0, Definitions);
      DefinitionsNames();
    }

    /**
     * Overwrites the value of metric `name` for `station`; nothing else
     * changes. Since `name` is registered, the write keeps `Valid()`; the
     * collector re-establishes it once per collection, through
     * `ValuesRegistered`, rather than after every single write.
     */
    method Set(name: string, station: string, x: real)
      requires name in gauges
      modifies this
      ensures gauges == old(gauges)
      ensures values == old(values)[Key(name, station) := x]
    {
      values := values[Key(name, station) := x];
    }
  }
}
