/**
 * The station collector: one fetch-convert-publish cycle for a station,
 * and a collection round over the configured stations.
 */
module Collector {
  import opened Wrappers
  import opened Metar
  import opened Metrics

  /** The values after publishing the readings of `obs` that precede the sky cover. */
  function PublishReadings(v: map<Key, real>, station: string, obs: Observation, units: Units): map<Key, real>
  {
    v[Key(Temperature, station) := obs.temperature]
     [Key(QuerySuccess, station) := 1.0]
     [Key(ObservationTime, station) := obs.observationTime as real]
     [Key(Dewpoint, station) := obs.dewpoint]
     [Key(WindDirection, station) := obs.windDirDegrees as real]
     [Key(WindSpeed, station) := units.ktsToMs(obs.windSpeedKts as real) * 3.6]
     [Key(Visibility, station) := units.statMileToKm(obs.visibilityStatuteMi)]
     [Key(Altimeter, station) := units.inHgToHPa(obs.altimeterInHg)]
  }

  /** The values after publishing the sky cover of `code`: unchanged when the code is not recognised. */
  function PublishSkyCover(v: map<Key, real>, station: string, code: string): map<Key, real>
  {
    match SkyCoverFraction(code)
    case Some(f) => v[Key(SkyCover, station) := f]
    case None => v
  }

  /** The values after stamping the fetch time `now` and publishing the Beaufort force. */
  function PublishStamps(v: map<Key, real>, station: string, obs: Observation, units: Units, now: int): map<Key, real>
  {
    v[Key(FetchTime, station) := now as real]
     [Key(WindForce, station) := units.ktsToBft(obs.windSpeedKts as real) as real]
  }

  /** The keys a collection for `station` writes. */
  function WrittenKeys(station: string, fetched: Result<Observation, string>): set<Key>
  {
    match fetched
    case Failure(_) => {Key(QuerySuccess, station)}
    case Success(obs) =>
      {Key(Temperature, station), Key(QuerySuccess, station), Key(ObservationTime, station), Key(Dewpoint, station),
       Key(WindDirection, station), Key(WindSpeed, station), Key(Visibility, station), Key(Altimeter, station),
       Key(FetchTime, station), Key(WindForce, station)}
      + (if obs.skyCover in CoverCodes then {Key(SkyCover, station)} else {})
  }

  /** A collection writes only values of the eleven metrics, labelled with its own station. */
  lemma WrittenKeysRegistered(station: string, fetched: Result<Observation, string>)
    ensures forall k | k in WrittenKeys(station, fetched) :: k.station == station && k.metric in MetricNames
  {
  }

  /**
   * The gauge values after one collection for `station`, given what the
   * provider returned and the Unix time `now` at which the fetch is stamped.
   */
  function Publish(v: map<Key, real>, station: string, fetched: Result<Observation, string>, units: Units, now: int): (r: map<Key, real>)
    ensures v.Keys <= r.Keys
  {
    match fetched
    case Failure(_) => v[Key(QuerySuccess, station) := 0.0]
    case Success(obs) =>
      PublishStamps(PublishSkyCover(PublishReadings(v, station, obs, units), station, obs.skyCover), station, obs, units, now)
  }

  /** A collection for `station` changes no value labelled with another station. */
  lemma PublishFrame(v: map<Key, real>, station: string, fetched: Result<Observation, string>, units: Units, now: int, k: Key)
    requires k.station != station
    ensures Lookup(Publish(v, station, fetched, units, now), k) == Lookup(v, k)
  {
  }

  /** A collection for `station` sets exactly the keys of `WrittenKeys`, and keeps every other entry. */
  lemma PublishKeys(v: map<Key, real>, station: string, fetched: Result<Observation, string>, units: Units, now: int)
    ensures Publish(v, station, fetched, units, now).Keys == v.Keys + WrittenKeys(station, fetched)
    ensures forall k | k !in WrittenKeys(station, fetched) :: Lookup(Publish(v, station, fetched, units, now), k) == Lookup(v, k)
  {
    if fetched.Success? {
      var obs := fetched.value;
      var readings := PublishReadings(v, station, obs, units);
      var sky := PublishSkyCover(readings, station, obs.skyCover);
      assert sky.Keys == readings.Keys + if obs.skyCover in CoverCodes then {Key(SkyCover, station)} else {};
    }
  }

  /** A collection only sets values of registered gauges, so it keeps every value under a registered gauge. */
  lemma PublishKeepsRegistered(v: map<Key, real>, g: Gauges, station: string, fetched: Result<Observation, string>, units: Units, now: int)
    requires ValuesRegistered(v, g) && MetricNames <= g.Keys
    ensures ValuesRegistered(Publish(v, station, fetched, units, now), g)
  {
    PublishKeys(v, station, fetched, units, now);
    WrittenKeysRegistered(station, fetched);
  }

  /** After a collection the station's success flag is 1 when the provider answered and 0 when it failed. */
  lemma PublishFlag(v: map<Key, real>, station: string, fetched: Result<Observation, string>, units: Units, now: int)
    ensures Lookup(Publish(v, station, fetched, units, now), Key(QuerySuccess, station)) ==
      Some(if fetched.Success? then 1.0 else 0.0)
  {
  }

  /** A failed fetch sets the station's success flag to 0 and changes nothing else. */
  lemma FetchFailed(v: map<Key, real>, station: string, err: string, units: Units, now: int, k: Key)
    requires k != Key(QuerySuccess, station)
    ensures Publish(v, station, Failure(err), units, now)[Key(QuerySuccess, station)] == 0.0
    ensures Lookup(Publish(v, station, Failure(err), units, now), k) == Lookup(v, k)
  {
  }

  /** A successful fetch sets the station's success flag to 1 and publishes the observation's own readings. */
  lemma FetchSucceeded(v: map<Key, real>, station: string, obs: Observation, units: Units, now: int)
    ensures var r := Publish(v, station, Success(obs), units, now);
      && Lookup(r, Key(QuerySuccess, station)) == Some(1.0)
      && Lookup(r, Key(Temperature, station)) == Some(obs.temperature)
      && Lookup(r, Key(ObservationTime, station)) == Some(obs.observationTime as real)
      && Lookup(r, Key(Dewpoint, station)) == Some(obs.dewpoint)
      && Lookup(r, Key(WindDirection, station)) == Some(obs.windDirDegrees as real)
  {
  }

  /**
   * A successful fetch publishes the converted readings: wind speed in km/h,
   * visibility in km, pressure in hPa and the Beaufort force, and stamps the
   * fetch time.
   */
  lemma FetchSucceededConverted(v: map<Key, real>, station: string, obs: Observation, units: Units, now: int)
    ensures var r := Publish(v, station, Success(obs), units, now);
      && Lookup(r, Key(WindSpeed, station)) == Some(units.ktsToMs(obs.windSpeedKts as real) * 3.6)
      && Lookup(r, Key(Visibility, station)) == Some(units.statMileToKm(obs.visibilityStatuteMi))
      && Lookup(r, Key(Altimeter, station)) == Some(units.inHgToHPa(obs.altimeterInHg))
      && Lookup(r, Key(FetchTime, station)) == Some(now as real)
      && Lookup(r, Key(WindForce, station)) == Some(units.ktsToBft(obs.windSpeedKts as real) as real)
  {
  }

  /**
   * A recognised sky-cover code publishes its fraction; any other code
   * leaves the station's sky-cover value as it was, or absent.
   */
  lemma SkyCoverOnlyWhenRecognised(v: map<Key, real>, station: string, obs: Observation, units: Units, now: int)
    ensures Lookup(Publish(v, station, Success(obs), units, now), Key(SkyCover, station)) ==
      if SkyCoverFraction(obs.skyCover).Some? then SkyCoverFraction(obs.skyCover)
      else Lookup(v, Key(SkyCover, station))
  {
  }

  /**
   * What a successful collection writes does not depend on the values it
   * starts from.
   */
  lemma PublishOverwrites(v: map<Key, real>, w: map<Key, real>, station: string, obs: Observation, units: Units, now: int, k: Key)
    requires k in WrittenKeys(station, Success(obs))
    ensures Lookup(Publish(v, station, Success(obs), units, now), k) == Lookup(Publish(w, station, Success(obs), units, now), k)
  {
  }

  /**
   * Of two collections of one station, the second succeeding, every value
   * left is the one the second would leave on its own, except the sky cover
   * when the second code is not recognised.
   */
  lemma LaterCollectionWins(v: map<Key, real>, station: string, first: Result<Observation, string>,
                            obs: Observation, units: Units, now1: int, now2: int, k: Key)
    requires k != Key(SkyCover, station) || obs.skyCover in CoverCodes
    ensures Lookup(Publish(Publish(v, station, first, units, now1), station, Success(obs), units, now2), k) ==
      Lookup(Publish(v, station, Success(obs), units, now2), k)
  {
    var w := Publish(v, station, first, units, now1);
    if k in WrittenKeys(station, Success(obs)) {
      PublishOverwrites(w, v, station, obs, units, now2, k);
    } else {
      PublishKeys(w, station, Success(obs), units, now2);
      PublishKeys(v, station, Success(obs), units, now2);
      if k.station == station {
        WrittenKeysRegistered(station, first);
        PublishKeys(v, station, first, units, now1);
      } else {
        PublishFrame(v, station, first, units, now1, k);
      }
    }
  }

  /**
   * The exception: a recognised sky cover from an earlier collection stays
   * next to the readings of a later successful collection whose code is not
   * recognised.
   */
  lemma StaleSkyCover(v: map<Key, real>, station: string, obs1: Observation, obs2: Observation, units: Units, now1: int, now2: int)
    requires obs1.skyCover in CoverCodes && obs2.skyCover !in CoverCodes
    ensures Lookup(Publish(Publish(v, station, Success(obs1), units, now1), station, Success(obs2), units, now2), Key(SkyCover, station)) ==
      SkyCoverFraction(obs1.skyCover)
  {
    SkyCoverOnlyWhenRecognised(v, station, obs1, units, now1);
    SkyCoverOnlyWhenRecognised(Publish(v, station, Success(obs1), units, now1), station, obs2, units, now2);
  }

  /** For instance, FEW followed by an unrecognised code leaves a quarter of the sky covered. */
  lemma StaleSkyCoverExample(v: map<Key, real>, station: string, obs1: Observation, obs2: Observation, units: Units, now1: int, now2: int)
    requires obs1.skyCover == "FEW" && obs2.skyCover == "VV"
    ensures Lookup(Publish(Publish(v, station, Success(obs1), units, now1), station, Success(obs2), units, now2), Key(SkyCover, station)) ==
      Some(0.25)
  {
    StaleSkyCover(v, station, obs1, obs2, units, now1, now2);
  }

  // ---------------------------------------------------------------------------
  // Collection rounds

  /** What the provider returned for one station, and the Unix time at which the collector stamped it. */
  datatype Fetch = Fetch(result: Result<Observation, string>, now: int)

  /**
   * The gauge values after one collection round: each station collected in
   * turn, in list order, `fetches[i]` being the provider's answer for
   * `stations[i]`. Stations not in the list keep their values.
   */
  function Round(v: map<Key, real>, stations: seq<string>, fetches: seq<Fetch>, units: Units): (r: map<Key, real>)
    requires |fetches| == |stations|
    ensures v.Keys <= r.Keys
    decreases |stations|
  {
    if stations == [] then v
    else
      var n := |stations| - 1;
      Publish(Round(v, stations[..n], fetches[..n], units), stations[n], fetches[n].result, units, fetches[n].now)
  }

  /** A round changes no value labelled with a station outside its list. */
  lemma {:induction false} RoundFrame(v: map<Key, real>, stations: seq<string>, fetches: seq<Fetch>, units: Units, k: Key)
    requires |fetches| == |stations| && k.station !in stations
    ensures Lookup(Round(v, stations, fetches, units), k) == Lookup(v, k)
    decreases |stations|
  {
    if stations != [] {
      var n := |stations| - 1;
      assert k.station !in stations[..n];
      RoundFrame(v, stations[..n], fetches[..n], units, k);
      PublishFrame(Round(v, stations[..n], fetches[..n], units), stations[n], fetches[n].result, units, fetches[n].now, k);
    }
  }

  /** A round over two lists of stations is the round over the first followed by the round over the second. */
  lemma {:induction false} RoundAppend(v: map<Key, real>, s1: seq<string>, f1: seq<Fetch>, s2: seq<string>, f2: seq<Fetch>, units: Units)
    requires |f1| == |s1| && |f2| == |s2|
    ensures Round(v, s1 + s2, f1 + f2, units) == Round(Round(v, s1, f1, units), s2, f2, units)
    decreases |s2|
  {
    if s2 == [] {
      assert s1 + s2 == s1 && f1 + f2 == f1;
    } else {
      var n := |s2| - 1;
      assert (s1 + s2)[..|s1 + s2| - 1] == s1 + s2[..n];
      assert (f1 + f2)[..|f1 + f2| - 1] == f1 + f2[..n];
      RoundAppend(v, s1, f1, s2[..n], f2[..n], units);
    }
  }

  /**
   * After a round, a station's success flag is the outcome of its last
   * fetch in that round: 1 when the provider answered, 0 when it failed.
   */
  lemma RoundFlagIsLastOutcome(v: map<Key, real>, stations: seq<string>, fetches: seq<Fetch>, units: Units, i: nat)
    requires |fetches| == |stations| && i < |stations|
    requires forall j | i < j < |stations| :: stations[j] != stations[i]
    ensures Lookup(Round(v, stations, fetches, units), Key(QuerySuccess, stations[i])) ==
      Some(if fetches[i].result.Success? then 1.0 else 0.0)
  {
    var k := Key(QuerySuccess, stations[i]);
    assert stations[..i + 1] + stations[i + 1..] == stations;
    assert fetches[..i + 1] + fetches[i + 1..] == fetches;
    RoundAppend(v, stations[..i + 1], fetches[..i + 1], stations[i + 1..], fetches[i + 1..], units);
    assert stations[..i + 1][..i] == stations[..i] && fetches[..i + 1][..i] == fetches[..i];
    var prefix := Round(v, stations[..i], fetches[..i], units);
    PublishFlag(prefix, stations[i], fetches[i].result, units, fetches[i].now);
    assert k.station !in stations[i + 1..];
    RoundFrame(Round(v, stations[..i + 1], fetches[..i + 1], units), stations[i + 1..], fetches[i + 1..], units, k);
  }

  /** After a round, every listed station has a success flag. */
  lemma {:induction false} RoundReportsEveryStation(v: map<Key, real>, stations: seq<string>, fetches: seq<Fetch>, units: Units)
    requires |fetches| == |stations|
    ensures forall s | s in stations :: Key(QuerySuccess, s) in Round(v, stations, fetches, units)
    decreases |stations|
  {
    if stations != [] {
      var n := |stations| - 1;
      RoundReportsEveryStation(v, stations[..n], fetches[..n], units);
      forall s | s in stations ensures Key(QuerySuccess, s) in Round(v, stations, fetches, units) {
        if s != stations[n] {
          var j :| 0 <= j < |stations| && stations[j] == s;
          assert stations[..n][j] == s;
        }
      }
    }
  }

  // ---------------------------------------------------------------------------
  // The collector itself

  /**
   * One fetch-convert-publish cycle for `station`. `fetched` is the
   * provider's answer and `now` the Unix time at which the fetch is stamped.
   */
  method QueryStation(reg: MetricRegistry, station: string, fetched: Result<Observation, string>, units: Units, now: int)
    requires reg.Valid() && reg.Registered()
    modifies reg
    ensures reg.Valid() && reg.gauges == old(reg.gauges)
    ensures reg.values == Publish(old(reg.values), station, fetched, units, now)
  {
    PublishKeepsRegistered(reg.values, reg.gauges, station, fetched, units, now);
    if fetched.Failure? {
      reg.Set(QuerySuccess, station, 0.0);
      return;
    }

    var data := fetched.value;
    ghost var v0 := reg.values;
    reg.Set(Temperature, station, data.temperature);
    reg.Set(QuerySuccess, station, 1.0);
    reg.Set(ObservationTime, station, data.observationTime as real);
    reg.Set(Dewpoint, station, data.dewpoint);
    reg.Set(WindDirection, station, data.windDirDegrees as real);
    reg.Set(WindSpeed, station, units.ktsToMs(data.windSpeedKts as real) * 3.6);
    reg.Set(Visibility, station, units.statMileToKm(data.visibilityStatuteMi));
    reg.Set(Altimeter, station, units.inHgToHPa(data.altimeterInHg));
    ghost var v1 := reg.values;
    assert v1 == PublishReadings(v0, station, data, units);

    var cover := data.skyCover;
    if cover in ClearCodes {
      reg.Set(SkyCover, station, 0.0);
    } else if cover == "FEW" {
      reg.Set(SkyCover, station, 2.0 / 8.0);
    } else if cover == "SCT" {
      reg.Set(SkyCover, station, 4.0 / 8.0);
    } else if cover == "BKN" {
      reg.Set(SkyCover, station, 7.0 / 8.0);
    } else if cover == "OVC" {
      reg.Set(SkyCover, station, 1.0);
    }
    ghost var v2 := reg.values;
    assert v2 == PublishSkyCover(v1, station, cover);

    reg.Set(FetchTime, station, now as real);
    reg.Set(WindForce, station, units.ktsToBft(data.windSpeedKts as real) as real);
    assert reg.values == PublishStamps(v2, station, data, units, now);
    assert Publish(v0, station, fetched, units, now) == PublishStamps(v2, station, data, units, now);
  }

  /**
   * One collection round: every station of `stations` collected in turn,
   * `fetches[i]` being what the provider returned for `stations[i]`.
   */
  method QueryMetrics(reg: MetricRegistry, stations: seq<string>, fetches: seq<Fetch>, units: Units)
    requires reg.Valid() && reg.Registered() && |fetches| == |stations|
    modifies reg
    ensures reg.Valid() && reg.gauges == old(reg.gauges)
    ensures reg.values == Round(old(reg.values), stations, fetches, units)
  {
    for i := 0 to |stations|
      invariant reg.Valid() && reg.gauges == old(reg.gauges)
      invariant reg.values == Round(old(reg.values), stations[..i], fetches[..i], units)
    {
      QueryStation(reg, stations[i], fetches[i].result, units, fetches[i].now);
      assert stations[..i + 1][..i] == stations[..i] && fetches[..i + 1][..i] == fetches[..i];
    }
    assert stations[..|stations|] == stations && fetches[..|fetches|] == fetches;
  }
}
