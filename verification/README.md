# prometheus-metar, modelled in Dafny

prometheus-metar is a Prometheus exporter for METAR weather reports. At
start-up it registers eleven gauges, each labelled by `station`:

- temperature
- query_success
- observation_time
- dewpoint
- wind_direction
- wind_speed
- visibility
- altimeter
- skycover
- fetch_time
- wind_force

It then checks its flags and the station list. After that, in every
collection round it fetches the current observation of each configured
station and overwrites that station's gauge values.

This project models the following, with a proof for each:

- the metric registry and how it is populated;
- one collection cycle for a station (`queryStation`), including the
  sky-cover switch;
- a collection round over the station list;
- the start-up checks.

Files:

- `wrappers.dfy` holds `Option` and `Result`.
- `metar.dfy` holds the observation record, the provider's unit
  conversions (taken as given functions) and the mapping from a sky-cover
  code to a cloud-cover fraction.
- `metrics.dfy` holds:
  - the gauge names and their help texts;
  - the registration specification `BuildAll`;
  - the registry class `MetricRegistry`. Its field `gauges` holds the
    registered gauges by name. Its field `values` holds the current value of
    each (metric, station) pair.
- `collector.dfy` holds `Publish`, the effect of one collection on the gauge
  values, and `Round`, the effect of a round. It also holds the methods
  `QueryStation` and `QueryMetrics`, which perform the writes on a registry
  and are proved equal to `Publish` and `Round`.
- `startup.dfy` holds the station-list check, the ordered start-up checks
  and the start-up sequence up to the first round.

## Model

| member | source | states |
|---|---|---|
| Metrics.MetricRegistry.constructor | main.go:28 | The registry starts with no gauges and no values, and satisfies its invariant. |
| Metrics.MetricRegistry.BuildMetric | main.go:45-51 | Registering a name adds a gauge in subsystem `metar`, labelled by `station`, with that name and help text. A name that is already registered keeps the gauge it has. Values are untouched and the invariant is kept. |
| Metrics.MetricRegistry.RegisterMetrics | main.go:53-65 | The eleven declarations in source order give `BuildAll(old gauges, Definitions)`. Afterwards all eleven names are registered and the values are unchanged. |
| Metrics.MetricRegistry.Set | main.go:107 | Setting one gauge child for a station overwrites exactly the entry (name, station). The gauge must be registered. Gauges are unchanged. |
| Metrics.Build | main.go:45-51 | Declaring a name registers exactly that name in addition to those already registered. |
| Metrics.BuildAll | main.go:53-65 | Declaring a list of gauges in turn never unregisters a name. |
| Metrics.BuildAllKeys | main.go:45-65 | Declaring a list adds exactly the declared names to the registered names. |
| Metrics.BuildAllKeeps | main.go:46 | A gauge already registered under a name is returned again and never replaced. |
| Metrics.BuildAllWellFormed | main.go:46-50 | Every registered gauge stays in subsystem `metar`, under its own name, with the single label `station`. |
| Metrics.BuildAllFirstHelp | main.go:46-49 | The first declaration of a new name decides that gauge's help text. |
| Metrics.BuildAllRegistered | main.go:46 | Declaring names that are all registered already changes nothing. |
| Metrics.BuildAllIdempotent | main.go:53-65 | Registering the same declarations twice gives the same gauges as registering them once. |
| Metrics.DefinitionsNames | main.go:31-43 | The start-up declarations name exactly the eleven metric constants. |
| Metrics.DefinitionsDistinct | main.go:31-43 | The eleven metric names are pairwise different. |
| Metrics.RegistrationFirstSix | main.go:54-59 | Registration declares temperature, query_success, observation_time, dewpoint, wind_direction and wind_speed first, in this order. |
| Metrics.RegistrationLastFive | main.go:60-64 | Registration then declares visibility, altimeter, skycover, fetch_time and wind_force, in this order. |
| Metrics.RegisterFromEmpty | main.go:27-65 | From an empty registry, the registered names are exactly the eleven constants. Each gauge is labelled by `station` and carries the help text of its declaration. |
| Metar.SkyCoverFraction | main.go:121-132 | The sky-cover switch gives a fraction exactly for the eight listed codes. The fraction is always in [0, 1]. |
| Metar.MaxOktas | main.go:121-132 | A cloud-amount category covers at most eight eighths of the sky. |
| Metar.SkyCoverIsOktaBound | main.go:121-132 | SKC, CLR, NSC and CAVOK give 0. FEW gives 2/8, SCT 4/8, BKN 7/8 and OVC 1. Each is the category's upper bound in oktas divided by 8. Any other code gives nothing. |
| Metar.SkyCoverRisesWithCover | main.go:121-132 | The published fraction rises strictly along clear < FEW < SCT < BKN < OVC. |
| Collector.WrittenKeysRegistered | main.go:104-136 | A collection writes only keys of the eleven metrics that are labelled with its own station. |
| Collector.Publish | main.go:104-136 | One collection for a station never removes a value. Its full effect is stated by the lemmas below. |
| Collector.PublishFrame | main.go:104-136 | A collection for one station leaves every value labelled with another station unchanged. |
| Collector.PublishKeys | main.go:104-136 | On error a collection writes only (query_success, station). On success it writes query_success and the nine other readings, plus skycover exactly when the code is recognised. Every entry outside those keys keeps its value, or stays absent. |
| Collector.PublishKeepsRegistered | main.go:104-136 | A collection keeps every value under a registered gauge. |
| Collector.PublishFlag | main.go:104-113 | After a collection, the station's query_success is 1 if the fetch succeeded and 0 if it failed. |
| Collector.FetchFailed | main.go:105-110 | On a provider error, (query_success, station) becomes 0 and no other entry changes. |
| Collector.FetchSucceeded | main.go:112-116 | On success, query_success becomes 1. Temperature and dewpoint are copied from the observation. Wind direction is the observation's degrees. Observation time is its Unix time. |
| Collector.FetchSucceededConverted | main.go:117-135 | On success, wind_speed is `KtsToMs(kts) * 3.6`. Visibility, altimeter and wind_force are the provider's conversions. fetch_time is the supplied current time. |
| Collector.SkyCoverOnlyWhenRecognised | main.go:121-132 | A recognised code publishes its fraction. Any other code leaves the (skycover, station) entry as it was, or absent, because there is no default case. |
| Collector.PublishOverwrites | main.go:112-135 | What a successful collection writes does not depend on the values before it. |
| Collector.LaterCollectionWins | main.go:112-135 | After two collections of a station where the second succeeds, every entry equals what the second would leave on its own. The one exception is (skycover, station) when the second code is not recognised. |
| Collector.StaleSkyCover | main.go:121-132 | That exception happens: a recognised sky cover from an earlier collection stays next to the readings of a later collection whose code matches no case. |
| Collector.StaleSkyCoverExample | main.go:121-132 | FEW followed by the unrecognised code VV leaves 0.25 under (skycover, station). |
| Collector.Round | main.go:98-102 | A round never removes a value. Its full effect is stated by the lemmas below. |
| Collector.RoundFrame | main.go:98-102 | A round leaves every value labelled with a station outside the list unchanged. |
| Collector.RoundAppend | main.go:98-102 | A round over two concatenated lists is the round over the first list followed by the round over the second. |
| Collector.RoundFlagIsLastOutcome | main.go:98-102 | After a round, a station's query_success reflects its last fetch in that round: 1 for success, 0 for failure. |
| Collector.RoundReportsEveryStation | main.go:98-102 | After a round, every listed station has a query_success value. |
| Collector.QueryStation | main.go:104-136 | The sequence of writes performed on the registry leaves exactly `Publish(old values, …)`. Gauges and the registry invariant are kept. |
| Collector.QueryMetrics | main.go:98-102 | Collecting the listed stations in list order leaves exactly `Round(old values, …)`. |
| Startup.NoStationConfigured | main.go:79 | The station check fails if and only if the list is exactly `[""]`. |
| Startup.StationListsThatPass | main.go:79 | The empty list passes the station check. So does any list of two or more names, even when one of them is empty. |
| Startup.Configure | main.go:71-81 | Start-up succeeds if and only if three checks pass: the flags parse, the interval parses, and the station list is not `[""]`. The checks run in that order: a flag error is reported first, then an interval error, and `NoStations` only when both parse. On success the stations, listen address and parsed interval are kept. |
| Startup.Boot | main.go:67-87 | The gauges are registered before the checks. A failed check leaves no values. Otherwise one round over the configured stations follows. |

## Left out

- The cron scheduler and the goroutine per station (main.go:83-85, main.go:98-102) are left out because they are concurrency.
  - A round is modelled as a sequential pass in list order.
  - Interleavings of overlapping rounds are not modelled.
  - Where stations repeat, the order of their writes is not modelled either.
- The HTTP router, the `/` handler, the `/metrics` exposition and `ListenAndServe` (main.go:89-95) are left out because they are I/O.
- Flag parsing and `time.ParseDuration` (main.go:71-77) are foreign calls. They are supplied to `Configure` as a `Result` and a given function.
- `log.Fatalf` exits become `StartupError` values.
- The network fetch `metar.FetchCurrentStationWeather` (main.go:105) is supplied as a `Result` for each fetch.
- The go-metar unit conversions `KtsToMs`, `StatMileToKm`, `InHgTohPa` and `KtsToBft` are fields of `Metar.Units`.
  - Their numeric bodies belong to a library that is not part of this model.
  - The Beaufort thresholds and the knots-to-km/h factor are therefore not modelled.
  - The wind speed follows the code, `KtsToMs(kts) * 3.6`, not a single knots-to-km/h factor.
- `time.Now()` (main.go:134) is a parameter, the Unix time of the fetch.
- The UTC conversion of the observation time (main.go:114) is folded into `Observation.observationTime`, which is in Unix seconds.
- The go-metar sky-cover constants are assumed to spell `FEW`, `SCT`, `BKN` and `OVC`. Their definition is not part of this model.
- The sky-cover code is the observation's single `SkyCondition.SkyCover` field, as main.go:122 reads it.
- Logging (main.go:108) is left out.
- Gauge values are exact `real`s, not 64-bit floats. The source rounds where the model is exact:
  - the product `KtsToMs(kts) * 3.6` at main.go:117, since 3.6 has no exact binary value;
  - the `float64` conversions of the Unix times at main.go:114 and main.go:134, which are exact only below 2^53 seconds.
- Metrics.MetricRegistry.BuildMetric: does not model the panic of `MustRegisterOrGet` when a name is registered again with a different help text. The model keeps the existing gauge, which is what the library does when the descriptors agree.
