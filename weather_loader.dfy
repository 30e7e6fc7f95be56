/** The weather join (backend/predictor/weather_loader.py): the weather
    table is renamed twice, once with the `ORIGIN_` prefix keyed by
    (FL_DATE, ORIGIN) and once with the `DEST_` prefix keyed by
    (FL_DATE, DEST), projected on the ten observation fields, and merged
    onto the flights with two independent left joins. */
module WeatherLoader {
  import opened Common
  import opened Calendar

  /** The ten observation fields, in the order of the projection. */
  const WEATHER_FIELDS: seq<string> := ["tavg", "tmin", "tmax", "prcp", "snow", "wdir", "wspd", "wpgt", "pres", "tsun"]

  const TAVG: nat := 0
  const PRCP: nat := 3
  const SNOW: nat := 4
  const WSPD: nat := 6

  /** The ten observation values of one weather row, in WEATHER_FIELDS
      order; None is NaN. */
  type Obs = s: seq<Option<real>> | |s| == 10 witness [None, None, None, None, None, None, None, None, None, None]

  /** The all-NaN observation a left join gives an unmatched flight. */
  const MISSING: Obs := [None, None, None, None, None, None, None, None, None, None]

  /** A row of the weather table: `time`, `airport`, the ten fields and
      whatever other columns the file has. */
  datatype WeatherRow = WeatherRow(time: Date, airport: string, obs: Obs, other: map<string, Value>)

  /** A row of the flights table: the columns the pipeline reads, and the
      rest of the file's columns in `other`. */
  datatype Flight = Flight(
    flDate: Date, origin: string, dest: string, airline: string,
    crsDepTime: int, arrDelay: Option<real>, other: map<string, Value>)

  /** A flight with its `ORIGIN_*` and `DEST_*` values attached. */
  datatype Joined = Joined(flight: Flight, originObs: Obs, destObs: Obs)

  /** The names of the columns the two renames produce. */
  function PrefixedColumns(prefix: string): (cols: seq<string>)
    ensures |cols| == 10
    ensures forall i :: 0 <= i < 10 ==> cols[i] == prefix + WEATHER_FIELDS[i]
  {
    seq(10, i requires 0 <= i < 10 => prefix + WEATHER_FIELDS[i])
  }

  /** The ten field names are pairwise distinct. */
  lemma WeatherFieldsDistinct()
    ensures forall f, g :: 0 <= f < g < 10 ==> WEATHER_FIELDS[f] != WEATHER_FIELDS[g]
  {
    forall f, g | 0 <= f < g < 10
      ensures WEATHER_FIELDS[f] != WEATHER_FIELDS[g]
    {
      var a, b := WEATHER_FIELDS[f], WEATHER_FIELDS[g];
      assert a[0] != b[0] || a[1] != b[1] || a[2] != b[2];
    }
  }

  /** The field whose prefixed name is `name`, searching from field `f` on. */
  function FieldIndexFrom(prefix: string, name: string, f: nat): (r: Option<nat>)
    requires f <= 10
    ensures r.Some? ==> f <= r.value < 10 && name == prefix + WEATHER_FIELDS[r.value]
    ensures r.None? ==> forall g :: f <= g < 10 ==> name != prefix + WEATHER_FIELDS[g]
    decreases 10 - f
  {
    if f == 10 then None
    else if name == prefix + WEATHER_FIELDS[f] then Some(f)
    else FieldIndexFrom(prefix, name, f + 1)
  }

  /** The value of a merged row's renamed weather column `name`: an
      `ORIGIN_*` column holds the origin observation, a `DEST_*` column the
      destination observation; None for a name that is neither. */
  function WeatherCell(x: Joined, name: string): (c: Option<Option<real>>)
    ensures c.Some? <==> name in PrefixedColumns("ORIGIN_") || name in PrefixedColumns("DEST_")
  {
    match FieldIndexFrom("ORIGIN_", name, 0)
    case Some(f) => Some(x.originObs[f])
    case None =>
      match FieldIndexFrom("DEST_", name, 0)
      case Some(f) => Some(x.destObs[f])
      case None =>
        assert name !in PrefixedColumns("ORIGIN_") && name !in PrefixedColumns("DEST_");
        None
  }

  /** `ORIGIN_<field>` reads the origin observation of that field and
      `DEST_<field>` the destination one. */
  lemma NamedWeatherCells(x: Joined, f: nat)
    requires f < 10
    ensures WeatherCell(x, "ORIGIN_" + WEATHER_FIELDS[f]) == Some(x.originObs[f])
    ensures WeatherCell(x, "DEST_" + WEATHER_FIELDS[f]) == Some(x.destObs[f])
  {
    WeatherFieldsDistinct();
    var o := "ORIGIN_" + WEATHER_FIELDS[f];
    var d := "DEST_" + WEATHER_FIELDS[f];
    var ro := FieldIndexFrom("ORIGIN_", o, 0);
    assert ro.Some?;
    assert WEATHER_FIELDS[ro.value] == o[7..] == WEATHER_FIELDS[f];
    assert d[0] == 'D';
    assert FieldIndexFrom("ORIGIN_", d, 0).None?;
    var rd := FieldIndexFrom("DEST_", d, 0);
    assert rd.Some?;
    assert WEATHER_FIELDS[rd.value] == d[5..] == WEATHER_FIELDS[f];
  }

  /** The ten observations of every weather row keyed (date, airport), in table order. */
  function Matches(weather: seq<WeatherRow>, date: Date, airport: string): (ms: seq<Obs>)
    ensures |ms| <= |weather|
    ensures ms == [] <==> forall i :: 0 <= i < |weather| ==> !(weather[i].time == date && weather[i].airport == airport)
  {
    if weather == [] then []
    else
      var rest := Matches(weather[1..], date, airport);
      assert forall i :: 1 <= i < |weather| ==> weather[i] == weather[1..][i - 1];
      (if weather[0].time == date && weather[0].airport == airport then [weather[0].obs] else []) + rest
  }

  /** The rows a left join gives one input row: one per match, or one with
      NaN when nothing matches. */
  function Expand(ms: seq<Obs>): (r: seq<Obs>)
    ensures |r| == if ms == [] then 1 else |ms|
  {
    if ms == [] then [MISSING] else ms
  }

  /** One flight paired with each of its joined observations. */
  function WithOrigin(f: Flight, os: seq<Obs>): (r: seq<(Flight, Obs)>)
    ensures |r| == |os|
    ensures forall k :: 0 <= k < |os| ==> r[k] == (f, os[k])
  {
    if os == [] then [] else [(f, os[0])] + WithOrigin(f, os[1..])
  }

  /** One origin-merged row paired with each of its destination observations. */
  function WithDest(row: (Flight, Obs), ds: seq<Obs>): (r: seq<Joined>)
    ensures |r| == |ds|
    ensures forall k :: 0 <= k < |ds| ==> r[k] == Joined(row.0, row.1, ds[k])
  {
    if ds == [] then [] else [Joined(row.0, row.1, ds[0])] + WithDest(row, ds[1..])
  }

  /** `flights.merge(weather_origin, on=['FL_DATE', 'ORIGIN'], how='left')`. */
  function MergeOrigin(flights: seq<Flight>, weather: seq<WeatherRow>): (r: seq<(Flight, Obs)>)
    ensures forall k :: 0 <= k < |r| ==> r[k].0 in flights
  {
    if flights == [] then []
    else WithOrigin(flights[0], Expand(Matches(weather, flights[0].flDate, flights[0].origin)))
           + MergeOrigin(flights[1..], weather)
  }

  /** `flights.merge(weather_dest, on=['FL_DATE', 'DEST'], how='left')`. */
  function MergeDest(rows: seq<(Flight, Obs)>, weather: seq<WeatherRow>): (r: seq<Joined>)
    ensures forall k :: 0 <= k < |r| ==> (r[k].flight, r[k].originObs) in rows
  {
    if rows == [] then []
    else WithDest(rows[0], Expand(Matches(weather, rows[0].0.flDate, rows[0].0.dest)))
           + MergeDest(rows[1..], weather)
  }

  /** load_and_merge_weather, the weather table given as already read. */
  function LoadAndMergeWeather(flights: seq<Flight>, weather: seq<WeatherRow>): (r: seq<Joined>)
    ensures forall k :: 0 <= k < |r| ==> r[k].flight in flights
  {
    MergeDest(MergeOrigin(flights, weather), weather)
  }

  /** At most one weather row per (time, airport). */
  predicate UniqueWeather(weather: seq<WeatherRow>) {
    forall i, j :: 0 <= i < j < |weather| ==>
      (weather[i].time, weather[i].airport) != (weather[j].time, weather[j].airport)
  }

  /** The observation for (date, airport), or NaN everywhere when there is none. */
  function WeatherAt(weather: seq<WeatherRow>, date: Date, airport: string): (o: Obs)
    ensures (exists i :: 0 <= i < |weather| && weather[i].time == date && weather[i].airport == airport)
            || o == MISSING
  {
    if weather == [] then MISSING
    else if weather[0].time == date && weather[0].airport == airport then weather[0].obs
    else
      var o := WeatherAt(weather[1..], date, airport);
      assert o != MISSING ==> exists i :: 1 <= i < |weather| && weather[i].time == date && weather[i].airport == airport by {
        if o != MISSING {
          var i :| 0 <= i < |weather[1..]| && weather[1..][i].time == date && weather[1..][i].airport == airport;
          assert weather[i + 1] == weather[1..][i];
        }
      }
      o
  }

  /** With unique keys, a key has at most one match, and that match is the
      row WeatherAt finds. */
  lemma {:induction false} UniqueMatch(weather: seq<WeatherRow>, date: Date, airport: string)
    requires UniqueWeather(weather)
    ensures Expand(Matches(weather, date, airport)) == [WeatherAt(weather, date, airport)]
  {
    if weather != [] {
      assert UniqueWeather(weather[1..]) by {
        forall i, j | 0 <= i < j < |weather[1..]|
          ensures (weather[1..][i].time, weather[1..][i].airport) != (weather[1..][j].time, weather[1..][j].airport)
        {
          assert weather[1..][i] == weather[i + 1] && weather[1..][j] == weather[j + 1];
        }
      }
      UniqueMatch(weather[1..], date, airport);
      if weather[0].time == date && weather[0].airport == airport {
        NoLaterMatch(weather, date, airport);
      }
    }
  }

  lemma NoLaterMatch(weather: seq<WeatherRow>, date: Date, airport: string)
    requires UniqueWeather(weather) && weather != []
    requires weather[0].time == date && weather[0].airport == airport
    ensures Matches(weather[1..], date, airport) == []
  {
    var rest := weather[1..];
    forall i | 0 <= i < |rest|
      ensures !(rest[i].time == date && rest[i].airport == airport)
    {
      assert rest[i] == weather[i + 1];
      assert (weather[0].time, weather[0].airport) != (weather[i + 1].time, weather[i + 1].airport);
    }
  }

  /** Under unique weather keys the origin merge keeps one row per flight, in order. */
  lemma {:induction false} MergeOriginRows(flights: seq<Flight>, weather: seq<WeatherRow>)
    requires UniqueWeather(weather)
    ensures |MergeOrigin(flights, weather)| == |flights|
    ensures forall i :: 0 <= i < |flights| ==>
      MergeOrigin(flights, weather)[i] == (flights[i], WeatherAt(weather, flights[i].flDate, flights[i].origin))
  {
    if flights != [] {
      MergeOriginRows(flights[1..], weather);
      UniqueMatch(weather, flights[0].flDate, flights[0].origin);
      var m := MergeOrigin(flights, weather);
      forall i | 0 <= i < |flights|
        ensures m[i] == (flights[i], WeatherAt(weather, flights[i].flDate, flights[i].origin))
      {
        if i > 0 {
          assert m[i] == MergeOrigin(flights[1..], weather)[i - 1];
          assert flights[1..][i - 1] == flights[i];
        }
      }
    }
  }

  /** Under unique weather keys the destination merge keeps one row per input row, in order. */
  lemma {:induction false} MergeDestRows(rows: seq<(Flight, Obs)>, weather: seq<WeatherRow>)
    requires UniqueWeather(weather)
    ensures |MergeDest(rows, weather)| == |rows|
    ensures forall i :: 0 <= i < |rows| ==>
      MergeDest(rows, weather)[i] == Joined(rows[i].0, rows[i].1, WeatherAt(weather, rows[i].0.flDate, rows[i].0.dest))
  {
    if rows != [] {
      MergeDestRows(rows[1..], weather);
      UniqueMatch(weather, rows[0].0.flDate, rows[0].0.dest);
      var m := MergeDest(rows, weather);
      forall i | 0 <= i < |rows|
        ensures m[i] == Joined(rows[i].0, rows[i].1, WeatherAt(weather, rows[i].0.flDate, rows[i].0.dest))
      {
        if i > 0 {
          assert m[i] == MergeDest(rows[1..], weather)[i - 1];
          assert rows[1..][i - 1] == rows[i];
        }
      }
    }
  }

  /** With at most one weather row per (time, airport): one output row per
      flight, in the same order, every flight column unchanged, `ORIGIN_*`
      looked up by (FL_DATE, ORIGIN) and `DEST_*` looked up, separately, by
      (FL_DATE, DEST). */
  lemma JoinRowsAndLookups(flights: seq<Flight>, weather: seq<WeatherRow>)
    requires UniqueWeather(weather)
    ensures var out := LoadAndMergeWeather(flights, weather);
      && |out| == |flights|
      && forall i :: 0 <= i < |flights| ==>
           && out[i].flight == flights[i]
           && out[i].originObs == WeatherAt(weather, flights[i].flDate, flights[i].origin)
           && out[i].destObs == WeatherAt(weather, flights[i].flDate, flights[i].dest)
  {
    MergeOriginRows(flights, weather);
    MergeDestRows(MergeOrigin(flights, weather), weather);
  }

  /** The same, by column name: in the merged table, row `i`'s
      `ORIGIN_<field>` cell is the field of the weather row keyed by the
      flight's (FL_DATE, ORIGIN), its `DEST_<field>` cell that of the row
      keyed by (FL_DATE, DEST), and its flight columns are the flight's. */
  lemma MergedWeatherCells(flights: seq<Flight>, weather: seq<WeatherRow>, i: nat, f: nat)
    requires UniqueWeather(weather) && i < |flights| && f < 10
    ensures |LoadAndMergeWeather(flights, weather)| == |flights|
    ensures LoadAndMergeWeather(flights, weather)[i].flight == flights[i]
    ensures WeatherCell(LoadAndMergeWeather(flights, weather)[i], "ORIGIN_" + WEATHER_FIELDS[f])
            == Some(WeatherAt(weather, flights[i].flDate, flights[i].origin)[f])
    ensures WeatherCell(LoadAndMergeWeather(flights, weather)[i], "DEST_" + WEATHER_FIELDS[f])
            == Some(WeatherAt(weather, flights[i].flDate, flights[i].dest)[f])
  {
    JoinRowsAndLookups(flights, weather);
    NamedWeatherCells(LoadAndMergeWeather(flights, weather)[i], f);
  }

  /** The lookup finds the weather row with that key, and is NaN when none has it. */
  lemma {:induction false} WeatherAtFinds(weather: seq<WeatherRow>, i: nat)
    requires UniqueWeather(weather) && i < |weather|
    ensures WeatherAt(weather, weather[i].time, weather[i].airport) == weather[i].obs
  {
    if i > 0 && !(weather[0].time == weather[i].time && weather[0].airport == weather[i].airport) {
      assert UniqueWeather(weather[1..]) by {
        forall a, b | 0 <= a < b < |weather[1..]|
          ensures (weather[1..][a].time, weather[1..][a].airport) != (weather[1..][b].time, weather[1..][b].airport)
        {
          assert weather[1..][a] == weather[a + 1] && weather[1..][b] == weather[b + 1];
        }
      }
      WeatherAtFinds(weather[1..], i - 1);
    } else if i > 0 {
      assert false;
    }
  }

  lemma {:induction false} WeatherAtMissing(weather: seq<WeatherRow>, date: Date, airport: string)
    requires forall i :: 0 <= i < |weather| ==> !(weather[i].time == date && weather[i].airport == airport)
    ensures WeatherAt(weather, date, airport) == MISSING
  {
    if weather != [] {
      WeatherAtMissing(weather[1..], date, airport);
    }
  }

  /** Weather columns beyond the ten fields and the two keys never reach the output. */
  lemma {:induction false} OtherWeatherColumnsDropped(flights: seq<Flight>, weather: seq<WeatherRow>, weather': seq<WeatherRow>)
    requires |weather| == |weather'|
    requires forall i :: 0 <= i < |weather| ==>
      weather[i].(other := map[]) == weather'[i].(other := map[])
    ensures LoadAndMergeWeather(flights, weather) == LoadAndMergeWeather(flights, weather')
  {
    MatchesIgnoreOther(weather, weather');
    assert MergeOrigin(flights, weather) == MergeOrigin(flights, weather') by {
      MergeOriginSame(flights, weather, weather');
    }
    MergeDestSame(MergeOrigin(flights, weather), weather, weather');
  }

  lemma {:induction false} MatchesIgnoreOther(weather: seq<WeatherRow>, weather': seq<WeatherRow>)
    requires |weather| == |weather'|
    requires forall i :: 0 <= i < |weather| ==> weather[i].(other := map[]) == weather'[i].(other := map[])
    ensures forall d, a :: Matches(weather, d, a) == Matches(weather', d, a)
  {
    if weather != [] {
      assert weather[0].(other := map[]) == weather'[0].(other := map[]);
      assert weather[0].time == weather'[0].time && weather[0].airport == weather'[0].airport && weather[0].obs == weather'[0].obs;
      assert forall i :: 0 <= i < |weather[1..]| ==> weather[1..][i] == weather[i + 1] && weather'[1..][i] == weather'[i + 1];
      MatchesIgnoreOther(weather[1..], weather'[1..]);
    }
  }

  lemma {:induction false} MergeOriginSame(flights: seq<Flight>, weather: seq<WeatherRow>, weather': seq<WeatherRow>)
    requires forall d, a :: Matches(weather, d, a) == Matches(weather', d, a)
    ensures MergeOrigin(flights, weather) == MergeOrigin(flights, weather')
  {
    if flights != [] {
      MergeOriginSame(flights[1..], weather, weather');
    }
  }

  lemma {:induction false} MergeDestSame(rows: seq<(Flight, Obs)>, weather: seq<WeatherRow>, weather': seq<WeatherRow>)
    requires forall d, a :: Matches(weather, d, a) == Matches(weather', d, a)
    ensures MergeDest(rows, weather) == MergeDest(rows, weather')
  {
    if rows != [] {
      MergeDestSame(rows[1..], weather, weather');
    }
  }

  /** Without unique keys a merge fans out: a flight with two weather rows
      for its origin and date appears twice. */
  lemma DuplicateWeatherFansOut(f: Flight, o1: Obs, o2: Obs)
    ensures |MergeOrigin([f], [WeatherRow(f.flDate, f.origin, o1, map[]), WeatherRow(f.flDate, f.origin, o2, map[])])| == 2
  {
    var w := [WeatherRow(f.flDate, f.origin, o1, map[]), WeatherRow(f.flDate, f.origin, o2, map[])];
    assert w[1..] == [w[1]];
    assert Matches(w, f.flDate, f.origin) == [o1, o2];
  }
}
