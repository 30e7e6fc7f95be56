/** The training-table derivation (backend/predictor/data_preprocessing.py):
    rows without a flight date are dropped, the weather is joined on, and
    then the table is augmented column by column, in place, in the order
    the Python code assigns the columns. The table is an array of
    `Features` records; a column that a later step assigns holds a
    placeholder until that step runs. */
module Preprocessing {
  import opened Common
  import opened Calendar
  import opened WeatherLoader

  // ---------------------------------------------------------------------
  // Input rows and `dropna(subset=["FL_DATE"])`
  // ---------------------------------------------------------------------

  /** A row of the flights file as `read_csv(parse_dates=["FL_DATE"])`
      gives it: the date may be missing (NaT). */
  datatype RawFlight = RawFlight(
    flDate: Option<Date>, origin: string, dest: string, airline: string,
    crsDepTime: int, arrDelay: Option<real>, other: map<string, Value>)

  function ToFlight(r: RawFlight): Flight
    requires r.flDate.Some?
  {
    Flight(r.flDate.value, r.origin, r.dest, r.airline, r.crsDepTime, r.arrDelay, r.other)
  }

  /** `flights.dropna(subset=["FL_DATE"])`: the dated rows, in order. */
  function DropMissingDates(raw: seq<RawFlight>): (fs: seq<Flight>)
    ensures |fs| <= |raw|
    ensures forall f :: f in fs ==> exists r :: r in raw && r.flDate.Some? && f == ToFlight(r)
    ensures forall r :: r in raw && r.flDate.Some? ==> ToFlight(r) in fs
  {
    if raw == [] then []
    else
      var rest := DropMissingDates(raw[1..]);
      assert forall r :: r in raw[1..] ==> r in raw;
      assert forall r :: r in raw ==> r == raw[0] || r in raw[1..];
      if raw[0].flDate.Some? then [ToFlight(raw[0])] + rest else rest
  }

  /** Dropping works row by row: the dated rows of `a + b` are those of
      `a` followed by those of `b`, so duplicates and order are kept. */
  lemma {:induction false} DropDistributes(a: seq<RawFlight>, b: seq<RawFlight>)
    ensures DropMissingDates(a + b) == DropMissingDates(a) + DropMissingDates(b)
  {
    if a != [] {
      assert (a + b)[1..] == a[1..] + b;
      assert (a + b)[0] == a[0];
      DropDistributes(a[1..], b);
    } else {
      assert a + b == b;
    }
  }

  /** A single row is kept, converted, exactly when it has a date. */
  lemma DropSingleRow(r: RawFlight)
    ensures DropMissingDates([r]) == if r.flDate.Some? then [ToFlight(r)] else []
  {
    assert [r][1..] == [];
  }

  /** When no date is missing, dropping keeps every row, in order. */
  lemma {:induction false} DropKeepsDatedTable(raw: seq<RawFlight>)
    requires forall i :: 0 <= i < |raw| ==> raw[i].flDate.Some?
    ensures |DropMissingDates(raw)| == |raw|
    ensures forall i :: 0 <= i < |raw| ==> DropMissingDates(raw)[i] == ToFlight(raw[i])
  {
    if raw != [] {
      DropKeepsDatedTable(raw[1..]);
    }
  }

  // ---------------------------------------------------------------------
  // `Series.median()` over the present values of a column
  // ---------------------------------------------------------------------

  predicate SortedReals(s: seq<real>) {
    forall i, j :: 0 <= i < j < |s| ==> s[i] <= s[j]
  }

  function InsertSorted(x: real, s: seq<real>): (r: seq<real>)
    requires SortedReals(s)
    ensures SortedReals(r)
    ensures multiset(r) == multiset(s) + multiset{x}
    ensures |r| == |s| + 1
  {
    if s == [] then [x]
    else if x <= s[0] then [x] + s
    else
      SortedTail(s);
      var t := InsertSorted(x, s[1..]);
      assert s == [s[0]] + s[1..];
      BoundedByHead(s, x, t);
      ConsSorted(s[0], t);
      [s[0]] + t
  }

  /** Every element of `t` is at least the head of `s` when `t` holds the
      tail of `s` and a value above that head. */
  lemma BoundedByHead(s: seq<real>, x: real, t: seq<real>)
    requires SortedReals(s) && s != [] && s[0] < x
    requires multiset(t) == multiset(s[1..]) + multiset{x}
    ensures forall k :: 0 <= k < |t| ==> s[0] <= t[k]
  {
    forall k | 0 <= k < |t|
      ensures s[0] <= t[k]
    {
      assert t[k] in multiset(t);
      if t[k] != x {
        assert t[k] in multiset(s[1..]);
        var i :| 0 <= i < |s[1..]| && s[1..][i] == t[k];
        assert s[i + 1] == t[k];
      }
    }
  }

  lemma ConsSorted(h: real, t: seq<real>)
    requires SortedReals(t) && forall k :: 0 <= k < |t| ==> h <= t[k]
    ensures SortedReals([h] + t)
  {
    forall i, j | 0 <= i < j < |t| + 1
      ensures ([h] + t)[i] <= ([h] + t)[j]
    {
      assert ([h] + t)[j] == t[j - 1];
      if i > 0 {
        assert ([h] + t)[i] == t[i - 1];
      }
    }
  }

  function SortReals(s: seq<real>): (r: seq<real>)
    ensures SortedReals(r)
    ensures multiset(r) == multiset(s)
    ensures |r| == |s|
  {
    if s == [] then []
    else
      assert s == [s[0]] + s[1..];
      InsertSorted(s[0], SortReals(s[1..]))
  }

  /** pandas' median: the middle value of the sorted present values, the mean
      of the two middle ones for an even count, NaN (None) for none. */
  function Median(xs: seq<real>): (m: Option<real>)
    ensures m.None? <==> xs == []
  {
    MiddleOf(SortReals(xs))
  }

  /** The middle value of a sorted sequence, or the mean of its two middle values. */
  function MiddleOf(s: seq<real>): (m: Option<real>)
    ensures m.None? <==> s == []
  {
    var n := |s|;
    if n == 0 then None
    else if n % 2 == 1 then Some(s[n / 2])
    else Some((s[n / 2 - 1] + s[n / 2]) / 2.0)
  }

  /** The median lies between the smallest and the largest value. */
  lemma MedianWithinRange(xs: seq<real>)
    requires xs != []
    ensures exists i :: 0 <= i < |xs| && xs[i] <= Median(xs).value
    ensures exists j :: 0 <= j < |xs| && Median(xs).value <= xs[j]
  {
    var s := SortReals(xs);
    var n := |s|;
    assert s[0] <= Median(xs).value <= s[n - 1];
    assert s[0] in multiset(xs) && s[n - 1] in multiset(xs);
    var i :| 0 <= i < |xs| && xs[i] == s[0];
    var j :| 0 <= j < |xs| && xs[j] == s[n - 1];
  }

  /** The first element of a sorted sequence is its least. */
  lemma SortedHeadLeast(a: seq<real>, x: real)
    requires SortedReals(a) && x in multiset(a)
    ensures a[0] <= x
  {
    var i :| 0 <= i < |a| && a[i] == x;
  }

  lemma MultisetTail(a: seq<real>)
    requires a != []
    ensures multiset(a[1..]) == multiset(a) - multiset{a[0]}
  {
    assert a == [a[0]] + a[1..];
  }

  lemma SortedTail(a: seq<real>)
    requires SortedReals(a) && a != []
    ensures SortedReals(a[1..])
  {
    forall i, j | 0 <= i < j < |a| - 1
      ensures a[1..][i] <= a[1..][j]
    {
      assert a[1..][i] == a[i + 1] && a[1..][j] == a[j + 1];
    }
  }

  /** Two sorted sequences with the same elements are equal. */
  lemma {:induction false} SortedUnique(a: seq<real>, b: seq<real>)
    requires SortedReals(a) && SortedReals(b) && multiset(a) == multiset(b)
    ensures a == b
  {
    assert |a| == |multiset(a)| == |multiset(b)| == |b|;
    if a != [] {
      assert a[0] in multiset(a) && b[0] in multiset(b);
      SortedHeadLeast(a, b[0]);
      SortedHeadLeast(b, a[0]);
      var h := a[0];
      assert b[0] == h;
      MultisetTail(a);
      MultisetTail(b);
      SortedTail(a);
      SortedTail(b);
      SortedUnique(a[1..], b[1..]);
      SeqHeadTail(a, b);
    }
  }

  lemma SeqHeadTail(a: seq<real>, b: seq<real>)
    requires a != [] && b != [] && a[0] == b[0] && a[1..] == b[1..]
    ensures a == b
  {
    assert a == [a[0]] + a[1..];
    assert b == [b[0]] + b[1..];
  }

  /** The median does not depend on the order of the rows. */
  lemma MedianOrderIndependent(xs: seq<real>, ys: seq<real>)
    requires multiset(xs) == multiset(ys)
    ensures Median(xs) == Median(ys)
  {
    var s, t := SortReals(xs), SortReals(ys);
    SortedUnique(s, t);
    assert s == t;
  }

  /** The origin (or destination) observation of a joined row. */
  function Side(x: Joined, origin: bool): Obs {
    if origin then x.originObs else x.destObs
  }

  /** Column `f` of one side of the joined table, row by row. */
  function Cells(j: seq<Joined>, origin: bool, f: nat): (c: seq<Option<real>>)
    requires f < 10
    ensures |c| == |j| && forall k :: 0 <= k < |j| ==> c[k] == Side(j[k], origin)[f]
  {
    seq(|j|, k requires 0 <= k < |j| => Side(j[k], origin)[f])
  }

  /** The positions of the present cells, in order. */
  function SomeIndices(c: seq<Option<real>>): (ks: seq<nat>)
    ensures forall m :: 0 <= m < |ks| ==> ks[m] < |c| && c[ks[m]].Some?
    ensures forall m, n :: 0 <= m < n < |ks| ==> ks[m] < ks[n]
    ensures forall k :: 0 <= k < |c| && c[k].Some? ==> k in ks
  {
    if c == [] then []
    else
      var init := c[..|c| - 1];
      assert forall k :: 0 <= k < |init| ==> init[k] == c[k];
      SomeIndices(init) + (if c[|c| - 1].Some? then [|c| - 1] else [])
  }

  /** The present cells' values, in order: one entry per present cell. */
  function Somes(c: seq<Option<real>>): (xs: seq<real>)
    ensures |xs| == |SomeIndices(c)|
    ensures forall m :: 0 <= m < |xs| ==> c[SomeIndices(c)[m]] == Some(xs[m])
  {
    if c == [] then []
    else
      var init := c[..|c| - 1];
      assert forall k :: 0 <= k < |init| ==> init[k] == c[k];
      Somes(init) + (if c[|c| - 1].Some? then [c[|c| - 1].value] else [])
  }

  /** The rows whose field `f` is present on the given side, in row order. */
  function PresentRows(j: seq<Joined>, origin: bool, f: nat): (ks: seq<nat>)
    requires f < 10
    ensures forall m :: 0 <= m < |ks| ==> ks[m] < |j| && Side(j[ks[m]], origin)[f].Some?
    ensures forall m, n :: 0 <= m < n < |ks| ==> ks[m] < ks[n]
    ensures forall k :: 0 <= k < |j| && Side(j[k], origin)[f].Some? ==> k in ks
  {
    SomeIndices(Cells(j, origin, f))
  }

  /** The present values of observation field `f` of the origin (or
      destination) side of the joined table, in row order: one entry per
      present row, so with their multiplicities. */
  function Present(j: seq<Joined>, origin: bool, f: nat): (xs: seq<real>)
    requires f < 10
    ensures |xs| == |PresentRows(j, origin, f)| && |xs| <= |j|
    ensures forall m :: 0 <= m < |xs| ==> Side(j[PresentRows(j, origin, f)[m]], origin)[f] == Some(xs[m])
    ensures forall k :: 0 <= k < |j| && Side(j[k], origin)[f].Some? ==> Side(j[k], origin)[f].value in xs
  {
    var c := Cells(j, origin, f);
    var xs := Somes(c);
    var ks := SomeIndices(c);
    forall k | 0 <= k < |j| && Side(j[k], origin)[f].Some?
      ensures Side(j[k], origin)[f].value in xs
    {
      var m :| 0 <= m < |ks| && ks[m] == k;
      assert c[ks[m]] == Some(xs[m]);
    }
    StrictlyIncreasingBound(ks, |j|);
    xs
  }

  /** A strictly increasing sequence of indices below `n` has at most `n` entries. */
  lemma {:induction false} StrictlyIncreasingBound(ks: seq<nat>, n: nat)
    requires forall m :: 0 <= m < |ks| ==> ks[m] < n
    requires forall m, p :: 0 <= m < p < |ks| ==> ks[m] < ks[p]
    ensures |ks| <= n
  {
    if ks != [] {
      var init := ks[..|ks| - 1];
      assert forall m :: 0 <= m < |init| ==> init[m] < ks[|ks| - 1] && init[m] == ks[m];
      StrictlyIncreasingBound(init, ks[|ks| - 1]);
    }
  }

  /** `df[cols].median()`: one median per observation field. */
  function ColumnMedians(j: seq<Joined>, origin: bool): (m: seq<Option<real>>)
    ensures |m| == 10
    ensures forall f :: 0 <= f < 10 ==> m[f] == Median(Present(j, origin, f))
  {
    seq(10, f requires 0 <= f < 10 => Median(Present(j, origin, f)))
  }

  /** `fillna(medians)` on one row: a present value stays, a missing one
      takes the column's median (which is itself missing for a column with
      no value at all). */
  function FillObs(o: Obs, m: seq<Option<real>>): (r: Obs)
    requires |m| == 10
    ensures forall f :: 0 <= f < 10 ==> r[f] == (if o[f].Some? then o[f] else m[f])
  {
    seq(10, f requires 0 <= f < 10 => if o[f].Some? then o[f] else m[f])
  }


  // ---------------------------------------------------------------------
  // The derived table
  // ---------------------------------------------------------------------

  /** The flight's own columns that survive into the output (CRS_DEP_TIME
      is dropped before the codes are assigned and has no place here). */
  datatype FlightCols = FlightCols(
    flDate: Date, origin: string, dest: string, airline: string,
    arrDelay: Option<real>, other: map<string, Value>)

  /** DAY_OF_WEEK, DEP_HOUR, MONTH, IS_WEEKEND. */
  datatype CalendarCols = CalendarCols(dayOfWeek: int, depHour: int, month: int, isWeekend: int)

  /** DEP_AIRPORT_TRAFFIC, ARR_AIRPORT_TRAFFIC. */
  datatype TrafficCols = TrafficCols(depTraffic: nat, arrTraffic: nat)

  /** ROUTE, ROUTE_POPULARITY. */
  datatype RouteCols = RouteCols(route: string, popularity: nat)

  /** TIME_OF_DAY and IS_MORNING, IS_AFTERNOON, IS_EVENING, IS_NIGHT. */
  datatype DayPartCols = DayPartCols(timeOfDay: string, isMorning: int, isAfternoon: int, isEvening: int, isNight: int)

  /** ORIGIN_/DEST_ HEAVY_WIND, PRECIP, SNOW flags and TEMP_DIFF. */
  datatype WeatherFlagCols = WeatherFlagCols(
    originHeavyWind: int, originPrecip: int, originSnow: int,
    destHeavyWind: int, destPrecip: int, destSnow: int,
    tempDiff: Option<real>)

  /** AIRLINE_CODE, ORIGIN_CODE, DEST_CODE: `Value`s, because the training
      loader later overwrites them with strings. */
  datatype CodeCols = CodeCols(airlineCode: Value, originCode: Value, destCode: Value)

  /** One row of the table `preprocess_flight_data` returns, its columns
      grouped by the step that assigns them. */
  datatype Features = Features(
    flight: FlightCols, originObs: Obs, destObs: Obs,
    arrDelayed: int, calendar: CalendarCols, traffic: TrafficCols, route: RouteCols,
    dayPart: DayPartCols, weatherFlags: WeatherFlagCols, holidayFlag: int, codes: CodeCols)

  function FlightColsOf(f: Flight): FlightCols {
    FlightCols(f.flDate, f.origin, f.dest, f.airline, f.arrDelay, f.other)
  }

  /** A joined row before any derived column has been assigned. */
  function Initial(x: Joined): (r: Features)
    ensures r.flight == FlightColsOf(x.flight)
    ensures r.originObs == x.originObs && r.destObs == x.destObs
  {
    Features(
      FlightColsOf(x.flight), x.originObs, x.destObs, 0,
      CalendarCols(0, 0, 0, 0), TrafficCols(0, 0), RouteCols("", 0),
      DayPartCols("", 0, 0, 0, 0), WeatherFlagCols(0, 0, 0, 0, 0, 0, None), 0,
      CodeCols(VNone, VNone, VNone))
  }

  /** `(flights['ARR_DELAY'] > 15).astype(int)`: NaN compares false. */
  function ArrDelayed(delay: Option<real>): (r: int)
    ensures r == 1 <==> delay.Some? && delay.value > 15.0
    ensures r == 0 <==> !(delay.Some? && delay.value > 15.0)
  {
    B2I(delay.Some? && delay.value > 15.0)
  }

  /** The threshold is strict: fifteen minutes late is on time. */
  lemma DelayThresholdExamples()
    ensures ArrDelayed(Some(15.0)) == 0
    ensures ArrDelayed(Some(16.0)) == 1
    ensures ArrDelayed(Some(15.5)) == 1
    ensures ArrDelayed(None) == 0
  {
  }

  /** The calendar columns of a flight date and a CRS_DEP_TIME, as the
      feature-engineering step of `preprocess_flight_data` derives them.
      Python's `//` by a positive divisor is Dafny's `/`. */
  function CalendarOf(d: Date, crsDepTime: int): (c: CalendarCols)
    requires ValidDate(d)
    ensures 0 <= c.dayOfWeek < 7 && c.month == d.month
    ensures c.isWeekend == 1 <==> c.dayOfWeek == 5 || c.dayOfWeek == 6
    ensures c.isWeekend == 0 <==> !(c.dayOfWeek == 5 || c.dayOfWeek == 6)
    ensures 100 * c.depHour <= crsDepTime < 100 * c.depHour + 100
  {
    var dow := Weekday(d);
    CalendarCols(dow, crsDepTime / 100, d.month, B2I(dow == 5 || dow == 6))
  }

  /** A 24-hour HHMM time has its hour as DEP_HOUR. */
  lemma DepHourOfClockTime(h: int, m: int, d: Date)
    requires ValidDate(d) && 0 <= h < 24 && 0 <= m < 60
    ensures CalendarOf(d, 100 * h + m).depHour == h
  {
  }

  /** The day-part columns of a day-part label. */
  function DayPartOf(part: string): (p: DayPartCols)
    ensures p.timeOfDay == part
    ensures p.isMorning == 1 <==> part == "morning"
    ensures p.isAfternoon == 1 <==> part == "afternoon"
    ensures p.isEvening == 1 <==> part == "evening"
    ensures p.isNight == 1 <==> part == "night"
    ensures p.isMorning + p.isAfternoon + p.isEvening + p.isNight <= 1
  {
    DayPartCols(part, B2I(part == "morning"), B2I(part == "afternoon"), B2I(part == "evening"), B2I(part == "night"))
  }

  /** A weather comparison `col > c`: NaN compares false. */
  function Above(x: Option<real>, c: real): (r: int)
    ensures r == 1 <==> x.Some? && x.value > c
    ensures r == 0 <==> !(x.Some? && x.value > c)
  {
    B2I(x.Some? && x.value > c)
  }

  /** `(ORIGIN_tavg - DEST_tavg).abs()`: NaN when either side is NaN. */
  function TempDiff(o: Option<real>, d: Option<real>): (r: Option<real>)
    ensures r.Some? <==> o.Some? && d.Some?
    ensures r.Some? ==> r.value >= 0.0 && (r.value == o.value - d.value || r.value == d.value - o.value)
  {
    if o.Some? && d.Some? then Some(Abs(o.value - d.value)) else None
  }

  /** The weather flags and TEMP_DIFF of one row. */
  function WeatherFlagsOf(o: Obs, d: Obs): (w: WeatherFlagCols)
    ensures w.originHeavyWind == Above(o[WSPD], 20.0) && w.destHeavyWind == Above(d[WSPD], 20.0)
    ensures w.originPrecip == Above(o[PRCP], 0.1) && w.destPrecip == Above(d[PRCP], 0.1)
    ensures w.originSnow == Above(o[SNOW], 0.0) && w.destSnow == Above(d[SNOW], 0.0)
    ensures w.tempDiff == TempDiff(o[TAVG], d[TAVG])
  {
    WeatherFlagCols(
      Above(o[WSPD], 20.0), Above(o[PRCP], 0.1), Above(o[SNOW], 0.0),
      Above(d[WSPD], 20.0), Above(d[PRCP], 0.1), Above(d[SNOW], 0.0),
      TempDiff(o[TAVG], d[TAVG]))
  }

  /** The training thresholds: wind over 20 (not 25) is heavy, and
      precipitation is a flag, not the amount. */
  lemma TrainingWeatherThresholds(o: Obs, d: Obs)
    requires o[WSPD] == Some(22.0) && o[PRCP] == Some(0.1) && d[PRCP] == Some(3.5)
    ensures WeatherFlagsOf(o, d).originHeavyWind == 1
    ensures WeatherFlagsOf(o, d).originPrecip == 0
    ensures WeatherFlagsOf(o, d).destPrecip == 1
  {
  }

  // ---------------------------------------------------------------------
  // Group keys: `groupby(keys)[col].transform('count')` gives each row the
  // number of occurrences of its key in the key column.
  // ---------------------------------------------------------------------

  function DepKeys(rows: seq<Features>): (ks: seq<(Date, string)>)
    ensures |ks| == |rows|
    ensures forall k :: 0 <= k < |rows| ==> ks[k] == (rows[k].flight.flDate, rows[k].flight.origin)
  {
    seq(|rows|, k requires 0 <= k < |rows| => (rows[k].flight.flDate, rows[k].flight.origin))
  }

  function ArrKeys(rows: seq<Features>): (ks: seq<(Date, string)>)
    ensures |ks| == |rows|
    ensures forall k :: 0 <= k < |rows| ==> ks[k] == (rows[k].flight.flDate, rows[k].flight.dest)
  {
    seq(|rows|, k requires 0 <= k < |rows| => (rows[k].flight.flDate, rows[k].flight.dest))
  }

  function RouteKeys(rows: seq<Features>): (ks: seq<string>)
    ensures |ks| == |rows|
    ensures forall k :: 0 <= k < |rows| ==> ks[k] == rows[k].route.route
  {
    seq(|rows|, k requires 0 <= k < |rows| => rows[k].route.route)
  }

  /** The (ORIGIN, DEST) pair of every row. */
  function PairKeys(rows: seq<Features>): (ks: seq<(string, string)>)
    ensures |ks| == |rows|
    ensures forall k :: 0 <= k < |rows| ==> ks[k] == (rows[k].flight.origin, rows[k].flight.dest)
  {
    seq(|rows|, k requires 0 <= k < |rows| => (rows[k].flight.origin, rows[k].flight.dest))
  }

  /** The flight columns of every row. */
  function FlightColumns(rows: seq<Features>): (fs: seq<FlightCols>)
    ensures |fs| == |rows|
    ensures forall k :: 0 <= k < |rows| ==> fs[k] == rows[k].flight
  {
    seq(|rows|, k requires 0 <= k < |rows| => rows[k].flight)
  }

  /** `ORIGIN + '-' + DEST`. */
  function RouteOf(origin: string, dest: string): (r: string)
    ensures |r| == |origin| + 1 + |dest|
    ensures r[..|origin|] == origin && r[|origin|] == '-' && r[|origin| + 1..] == dest
  {
    origin + "-" + dest
  }

  predicate NoDash(s: string) {
    forall i :: 0 <= i < |s| ==> s[i] != '-'
  }

  /** For airport codes without a dash, the route string determines the
      pair of airports. */
  lemma RouteInjective(o1: string, d1: string, o2: string, d2: string)
    requires NoDash(o1) && NoDash(o2)
    requires RouteOf(o1, d1) == RouteOf(o2, d2)
    ensures o1 == o2 && d1 == d2
  {
  }

  /** Counting route strings counts pairs, on the two key columns. */
  lemma {:induction false} RouteKeyCount(rs: seq<string>, ps: seq<(string, string)>, o: string, d: string)
    requires |rs| == |ps|
    requires forall k :: 0 <= k < |ps| ==> rs[k] == RouteOf(ps[k].0, ps[k].1) && NoDash(ps[k].0)
    requires NoDash(o)
    ensures multiset(rs)[RouteOf(o, d)] == multiset(ps)[(o, d)]
  {
    if ps != [] {
      RouteKeyCount(rs[1..], ps[1..], o, d);
      assert rs == [rs[0]] + rs[1..];
      assert ps == [ps[0]] + ps[1..];
      if rs[0] == RouteOf(o, d) {
        RouteInjective(ps[0].0, ps[0].1, o, d);
      }
    }
  }

  // ---------------------------------------------------------------------
  // `astype("category").cat.codes`: the position of the value among the
  // sorted distinct values of the column, i.e. the number of distinct
  // values that sort before it.
  // ---------------------------------------------------------------------

  function Distinct(col: seq<string>): (vs: set<string>)
    ensures forall v :: v in vs <==> v in col
  {
    set v | v in col
  }

  /** The code of `v`: how many of the distinct values sort before it. */
  function CategoryCode(values: set<string>, v: string): (c: nat)
    ensures c <= |values|
  {
    var below := set w | w in values && LexLess(w, v);
    assert below <= values;
    SubsetCard(below, values);
    |below|
  }

  /** The code is 0 exactly for a value no other value sorts before. */
  lemma CodeZeroIffLeast(values: set<string>, v: string)
    ensures CategoryCode(values, v) == 0 <==> forall w :: w in values ==> !LexLess(w, v)
  {
    var below := set w | w in values && LexLess(w, v);
    assert forall w :: w in values && LexLess(w, v) ==> w in below;
    assert |below| == 0 ==> below == {};
  }

  lemma SubsetCard(a: set<string>, b: set<string>)
    requires a <= b
    ensures |a| <= |b|
  {
    assert b == a + (b - a) && a * (b - a) == {};
  }

  /** Codes lie in [0, number of distinct values). */
  lemma CodeInRange(values: set<string>, v: string)
    requires v in values
    ensures CategoryCode(values, v) < |values|
  {
    var below := set w | w in values && LexLess(w, v);
    LexLessIrreflexive(v);
    var above := values - below;
    assert v in above;
    assert values == below + above && below * above == {};
  }

  /** The code mapping preserves the order of the strings. */
  lemma CodeMonotone(values: set<string>, v: string, w: string)
    requires v in values && w in values && LexLess(v, w)
    ensures CategoryCode(values, v) < CategoryCode(values, w)
  {
    var bv := set x | x in values && LexLess(x, v);
    var bw := set x | x in values && LexLess(x, w);
    forall x | x in bv
      ensures x in bw
    {
      LexLessTransitive(x, v, w);
    }
    LexLessIrreflexive(v);
    assert v in bw && v !in bv;
    var extra := bw - bv;
    assert v in extra;
    assert bw == bv + extra && bv * extra == {};
  }

  /** Distinct strings get distinct codes. */
  lemma CodeInjective(values: set<string>, v: string, w: string)
    requires v in values && w in values && v != w
    ensures CategoryCode(values, v) != CategoryCode(values, w)
  {
    LexLessTotal(v, w);
    if LexLess(v, w) {
      CodeMonotone(values, v, w);
    } else {
      CodeMonotone(values, w, v);
    }
  }

  function Airlines(fs: seq<FlightCols>): (col: seq<string>)
    ensures |col| == |fs|
    ensures forall k :: 0 <= k < |fs| ==> col[k] == fs[k].airline
  {
    seq(|fs|, k requires 0 <= k < |fs| => fs[k].airline)
  }

  function Origins(fs: seq<FlightCols>): (col: seq<string>)
    ensures |col| == |fs|
    ensures forall k :: 0 <= k < |fs| ==> col[k] == fs[k].origin
  {
    seq(|fs|, k requires 0 <= k < |fs| => fs[k].origin)
  }

  function Dests(fs: seq<FlightCols>): (col: seq<string>)
    ensures |col| == |fs|
    ensures forall k :: 0 <= k < |fs| ==> col[k] == fs[k].dest
  {
    seq(|fs|, k requires 0 <= k < |fs| => fs[k].dest)
  }

  /** The three codes of a row, given the flight columns of the whole table. */
  function CodesOf(table: seq<FlightCols>, f: FlightCols): (c: CodeCols)
    ensures c.airlineCode.VInt? && c.originCode.VInt? && c.destCode.VInt?
    ensures f in table ==> c.airlineCode.i < |Distinct(Airlines(table))|
    ensures f in table ==> c.originCode.i < |Distinct(Origins(table))|
    ensures f in table ==> c.destCode.i < |Distinct(Dests(table))|
  {
    CodesBelowDistinctCount(table, f);
    CodeCols(
      VInt(CategoryCode(Distinct(Airlines(table)), f.airline)),
      VInt(CategoryCode(Distinct(Origins(table)), f.origin)),
      VInt(CategoryCode(Distinct(Dests(table)), f.dest)))
  }

  /** A row of the table has each of its codes below the number of
      distinct values of that column. */
  lemma CodesBelowDistinctCount(table: seq<FlightCols>, f: FlightCols)
    ensures f in table ==> CategoryCode(Distinct(Airlines(table)), f.airline) < |Distinct(Airlines(table))|
    ensures f in table ==> CategoryCode(Distinct(Origins(table)), f.origin) < |Distinct(Origins(table))|
    ensures f in table ==> CategoryCode(Distinct(Dests(table)), f.dest) < |Distinct(Dests(table))|
  {
    if f in table {
      var k :| 0 <= k < |table| && table[k] == f;
      assert Airlines(table)[k] == f.airline && Origins(table)[k] == f.origin && Dests(table)[k] == f.dest;
      CodeInRange(Distinct(Airlines(table)), f.airline);
      CodeInRange(Distinct(Origins(table)), f.origin);
      CodeInRange(Distinct(Dests(table)), f.dest);
    }
  }

  // ---------------------------------------------------------------------
  // The in-place column assignments, one method per step
  // ---------------------------------------------------------------------

  /** `flights[weather_numeric_cols].fillna(medians)`. */
  method FillWeather(t: array<Features>, om: seq<Option<real>>, dm: seq<Option<real>>)
    requires |om| == 10 && |dm| == 10
    modifies t
    ensures forall k :: 0 <= k < t.Length ==>
      t[k] == old(t[k]).(originObs := FillObs(old(t[k]).originObs, om), destObs := FillObs(old(t[k]).destObs, dm))
  {
    var i := 0;
    while i < t.Length
      invariant 0 <= i <= t.Length
      invariant forall k :: 0 <= k < i ==>
        t[k] == old(t[k]).(originObs := FillObs(old(t[k]).originObs, om), destObs := FillObs(old(t[k]).destObs, dm))
      invariant forall k :: i <= k < t.Length ==> t[k] == old(t[k])
    {
      t[i] := t[i].(originObs := FillObs(t[i].originObs, om), destObs := FillObs(t[i].destObs, dm));
      i := i + 1;
    }
  }

  /** `ARR_DELAYED`. */
  method AssignLabel(t: array<Features>)
    modifies t
    ensures forall k :: 0 <= k < t.Length ==> t[k] == old(t[k]).(arrDelayed := ArrDelayed(old(t[k]).flight.arrDelay))
  {
    var i := 0;
    while i < t.Length
      invariant 0 <= i <= t.Length
      invariant forall k :: 0 <= k < i ==> t[k] == old(t[k]).(arrDelayed := ArrDelayed(old(t[k]).flight.arrDelay))
      invariant forall k :: i <= k < t.Length ==> t[k] == old(t[k])
    {
      t[i] := t[i].(arrDelayed := ArrDelayed(t[i].flight.arrDelay));
      i := i + 1;
    }
  }

  /** DAY_OF_WEEK, DEP_HOUR, MONTH, IS_WEEKEND; `crs` is the
      CRS_DEP_TIME column. */
  method AssignCalendar(t: array<Features>, crs: seq<int>)
    requires |crs| == t.Length
    requires forall k :: 0 <= k < t.Length ==> ValidDate(t[k].flight.flDate)
    modifies t
    ensures forall k :: 0 <= k < t.Length ==> t[k] == old(t[k]).(calendar := CalendarOf(old(t[k]).flight.flDate, crs[k]))
  {
    ghost var s0 := t[..];
    var i := 0;
    while i < t.Length
      invariant 0 <= i <= t.Length
      invariant forall k :: 0 <= k < i ==> t[k] == s0[k].(calendar := CalendarOf(s0[k].flight.flDate, crs[k]))
      invariant forall k :: i <= k < t.Length ==> t[k] == s0[k]
    {
      var x := t[i];
      var c := CalendarOf(x.flight.flDate, crs[i]);
      t[i] := x.(calendar := c);
      i := i + 1;
    }
  }

  /** DEP_AIRPORT_TRAFFIC, ARR_AIRPORT_TRAFFIC, given the
      counts of the two group keys over the whole table. */
  method AssignTraffic(t: array<Features>, dep: multiset<(Date, string)>, arr: multiset<(Date, string)>)
    modifies t
    ensures forall k :: 0 <= k < t.Length ==>
      t[k] == old(t[k]).(traffic := TrafficCols(dep[(old(t[k]).flight.flDate, old(t[k]).flight.origin)],
                                                arr[(old(t[k]).flight.flDate, old(t[k]).flight.dest)]))
  {
    var i := 0;
    while i < t.Length
      invariant 0 <= i <= t.Length
      invariant forall k :: 0 <= k < i ==>
        t[k] == old(t[k]).(traffic := TrafficCols(dep[(old(t[k]).flight.flDate, old(t[k]).flight.origin)],
                                                  arr[(old(t[k]).flight.flDate, old(t[k]).flight.dest)]))
      invariant forall k :: i <= k < t.Length ==> t[k] == old(t[k])
    {
      t[i] := t[i].(traffic := TrafficCols(dep[(t[i].flight.flDate, t[i].flight.origin)],
                                           arr[(t[i].flight.flDate, t[i].flight.dest)]));
      i := i + 1;
    }
  }

  /** ROUTE. */
  method AssignRoute(t: array<Features>)
    modifies t
    ensures forall k :: 0 <= k < t.Length ==>
      t[k] == old(t[k]).(route := old(t[k]).route.(route := RouteOf(old(t[k]).flight.origin, old(t[k]).flight.dest)))
  {
    var i := 0;
    while i < t.Length
      invariant 0 <= i <= t.Length
      invariant forall k :: 0 <= k < i ==>
        t[k] == old(t[k]).(route := old(t[k]).route.(route := RouteOf(old(t[k]).flight.origin, old(t[k]).flight.dest)))
      invariant forall k :: i <= k < t.Length ==> t[k] == old(t[k])
    {
      t[i] := t[i].(route := t[i].route.(route := RouteOf(t[i].flight.origin, t[i].flight.dest)));
      i := i + 1;
    }
  }

  /** ROUTE_POPULARITY, given the count of each route string. */
  method AssignPopularity(t: array<Features>, routes: multiset<string>)
    modifies t
    ensures forall k :: 0 <= k < t.Length ==>
      t[k] == old(t[k]).(route := old(t[k]).route.(popularity := routes[old(t[k]).route.route]))
  {
    var i := 0;
    while i < t.Length
      invariant 0 <= i <= t.Length
      invariant forall k :: 0 <= k < i ==>
        t[k] == old(t[k]).(route := old(t[k]).route.(popularity := routes[old(t[k]).route.route]))
      invariant forall k :: i <= k < t.Length ==> t[k] == old(t[k])
    {
      t[i] := t[i].(route := t[i].route.(popularity := routes[t[i].route.route]));
      i := i + 1;
    }
  }

  /** TIME_OF_DAY and the four day-part flags; the bucketing
      function `time_of_day` is a parameter. */
  method AssignDayParts(t: array<Features>, timeOfDay: int -> string)
    modifies t
    ensures forall k :: 0 <= k < t.Length ==>
      t[k] == old(t[k]).(dayPart := DayPartOf(timeOfDay(old(t[k]).calendar.depHour)))
  {
    var i := 0;
    while i < t.Length
      invariant 0 <= i <= t.Length
      invariant forall k :: 0 <= k < i ==> t[k] == old(t[k]).(dayPart := DayPartOf(timeOfDay(old(t[k]).calendar.depHour)))
      invariant forall k :: i <= k < t.Length ==> t[k] == old(t[k])
    {
      t[i] := t[i].(dayPart := DayPartOf(timeOfDay(t[i].calendar.depHour)));
      i := i + 1;
    }
  }

  /** The weather flags and TEMP_DIFF, read from the imputed
      weather columns. */
  method AssignWeatherFlags(t: array<Features>)
    modifies t
    ensures forall k :: 0 <= k < t.Length ==>
      t[k] == old(t[k]).(weatherFlags := WeatherFlagsOf(old(t[k]).originObs, old(t[k]).destObs))
  {
    var i := 0;
    while i < t.Length
      invariant 0 <= i <= t.Length
      invariant forall k :: 0 <= k < i ==>
        t[k] == old(t[k]).(weatherFlags := WeatherFlagsOf(old(t[k]).originObs, old(t[k]).destObs))
      invariant forall k :: i <= k < t.Length ==> t[k] == old(t[k])
    {
      t[i] := t[i].(weatherFlags := WeatherFlagsOf(t[i].originObs, t[i].destObs));
      i := i + 1;
    }
  }

  /** HOLIDAY_FLAG: membership of the date in the holiday
      calendar, which is a parameter. */
  method AssignHoliday(t: array<Features>, holidays: set<Date>)
    modifies t
    ensures forall k :: 0 <= k < t.Length ==> t[k] == old(t[k]).(holidayFlag := B2I(old(t[k]).flight.flDate in holidays))
  {
    var i := 0;
    while i < t.Length
      invariant 0 <= i <= t.Length
      invariant forall k :: 0 <= k < i ==> t[k] == old(t[k]).(holidayFlag := B2I(old(t[k]).flight.flDate in holidays))
      invariant forall k :: i <= k < t.Length ==> t[k] == old(t[k])
    {
      t[i] := t[i].(holidayFlag := B2I(t[i].flight.flDate in holidays));
      i := i + 1;
    }
  }

  /** AIRLINE_CODE, ORIGIN_CODE, DEST_CODE, given the flight
      columns of the whole table. */
  method AssignCodes(t: array<Features>, table: seq<FlightCols>)
    modifies t
    ensures forall k :: 0 <= k < t.Length ==> t[k] == old(t[k]).(codes := CodesOf(table, old(t[k]).flight))
  {
    var i := 0;
    while i < t.Length
      invariant 0 <= i <= t.Length
      invariant forall k :: 0 <= k < i ==> t[k] == old(t[k]).(codes := CodesOf(table, old(t[k]).flight))
      invariant forall k :: i <= k < t.Length ==> t[k] == old(t[k])
    {
      var x := t[i];
      var c := CodesOf(table, x.flight);
      t[i] := x.(codes := c);
      i := i + 1;
    }
  }

  // ---------------------------------------------------------------------
  // What the returned table satisfies
  // ---------------------------------------------------------------------

  /** The joined table the derivation starts from: the dated rows of the CSV, merged with the weather. */
  function JoinedTable(raw: seq<RawFlight>, weather: seq<WeatherRow>): seq<Joined> {
    LoadAndMergeWeather(DropMissingDates(raw), weather)
  }

  /** Row for row, the flight columns are those of the joined table. */
  predicate KeepsFlightColumns(j: seq<Joined>, out: seq<Features>) {
    |out| == |j| && forall k :: 0 <= k < |j| ==> out[k].flight == FlightColsOf(j[k].flight)
  }

  /** Each weather column is the joined column with its gaps filled by the
      column median. */
  predicate FilledWeather(j: seq<Joined>, out: seq<Features>)
    requires |out| == |j|
  {
    forall k :: 0 <= k < |j| ==>
      out[k].originObs == FillObs(j[k].originObs, ColumnMedians(j, true)) &&
      out[k].destObs == FillObs(j[k].destObs, ColumnMedians(j, false))
  }

  predicate LabelColumn(out: seq<Features>) {
    forall k :: 0 <= k < |out| ==> out[k].arrDelayed == ArrDelayed(out[k].flight.arrDelay)
  }

  predicate CalendarColumns(j: seq<Joined>, out: seq<Features>)
    requires |out| == |j|
  {
    forall k :: 0 <= k < |j| ==>
      ValidDate(out[k].flight.flDate) && out[k].calendar == CalendarOf(out[k].flight.flDate, j[k].flight.crsDepTime)
  }

  predicate TrafficColumns(out: seq<Features>) {
    forall k :: 0 <= k < |out| ==>
      out[k].traffic.depTraffic == multiset(DepKeys(out))[(out[k].flight.flDate, out[k].flight.origin)] &&
      out[k].traffic.arrTraffic == multiset(ArrKeys(out))[(out[k].flight.flDate, out[k].flight.dest)]
  }

  predicate RouteColumns(out: seq<Features>) {
    forall k :: 0 <= k < |out| ==>
      out[k].route.route == RouteOf(out[k].flight.origin, out[k].flight.dest) &&
      out[k].route.popularity == multiset(RouteKeys(out))[out[k].route.route]
  }

  predicate DayPartColumns(out: seq<Features>, timeOfDay: int -> string) {
    forall k :: 0 <= k < |out| ==> out[k].dayPart == DayPartOf(timeOfDay(out[k].calendar.depHour))
  }

  predicate WeatherFlagColumns(out: seq<Features>) {
    forall k :: 0 <= k < |out| ==> out[k].weatherFlags == WeatherFlagsOf(out[k].originObs, out[k].destObs)
  }

  predicate HolidayColumn(out: seq<Features>, holidays: set<Date>) {
    forall k :: 0 <= k < |out| ==> out[k].holidayFlag == B2I(out[k].flight.flDate in holidays)
  }

  predicate CodeColumns(out: seq<Features>) {
    forall k :: 0 <= k < |out| ==> out[k].codes == CodesOf(FlightColumns(out), out[k].flight)
  }

  /** `preprocess_flight_data` after the CSV read: drop undated rows, join
      the weather, then assign the derived columns in place. */
  method PreprocessFlightData(raw: seq<RawFlight>, weather: seq<WeatherRow>, holidays: set<Date>, timeOfDay: int -> string)
    returns (out: seq<Features>)
    requires forall r :: r in raw && r.flDate.Some? ==> ValidDate(r.flDate.value)
    ensures KeepsFlightColumns(JoinedTable(raw, weather), out)
    ensures FilledWeather(JoinedTable(raw, weather), out)
    ensures LabelColumn(out)
    ensures CalendarColumns(JoinedTable(raw, weather), out)
    ensures TrafficColumns(out)
    ensures RouteColumns(out)
    ensures DayPartColumns(out, timeOfDay)
    ensures WeatherFlagColumns(out)
    ensures HolidayColumn(out, holidays)
    ensures CodeColumns(out)
  {
    var flights := DropMissingDates(raw);
    var j := LoadAndMergeWeather(flights, weather);
    forall k | 0 <= k < |j|
      ensures ValidDate(j[k].flight.flDate)
    {
      assert j[k].flight in flights;
    }
    var t := new Features[|j|](k requires 0 <= k < |j| => Initial(j[k]));
    DeriveRowColumns(t, j);
    DeriveGroupColumns(t, j);
    DeriveFlagColumns(t, j, holidays, timeOfDay);
    DeriveCodeColumns(t, j, holidays, timeOfDay);
    out := t[..];
  }

  /** The first passes of `preprocess_flight_data`: imputation, label and calendar columns. */
  method DeriveRowColumns(t: array<Features>, j: seq<Joined>)
    requires t.Length == |j|
    requires forall k :: 0 <= k < |j| ==> t[k] == Initial(j[k]) && ValidDate(j[k].flight.flDate)
    modifies t
    ensures KeepsFlightColumns(j, t[..]) && FilledWeather(j, t[..])
    ensures LabelColumn(t[..]) && CalendarColumns(j, t[..])
  {
    var crs := seq(|j|, k requires 0 <= k < |j| => j[k].flight.crsDepTime);
    FillWeather(t, ColumnMedians(j, true), ColumnMedians(j, false));
    AssignLabel(t);
    AssignCalendar(t, crs);
  }

  /** Two tables that agree on the columns assigned up to the calendar columns. */
  predicate SameRowColumns(a: seq<Features>, b: seq<Features>) {
    |a| == |b| &&
    forall k :: 0 <= k < |a| ==>
      a[k].flight == b[k].flight && a[k].originObs == b[k].originObs && a[k].destObs == b[k].destObs &&
      a[k].arrDelayed == b[k].arrDelayed && a[k].calendar == b[k].calendar
  }

  /** Two tables that agree, in addition, on the traffic and route columns. */
  predicate SameGroupColumns(a: seq<Features>, b: seq<Features>) {
    SameRowColumns(a, b) &&
    forall k :: 0 <= k < |a| ==> a[k].traffic == b[k].traffic && a[k].route == b[k].route
  }

  /** Two tables that agree, in addition, on the day-part, weather-flag and holiday columns. */
  predicate SameFlagColumns(a: seq<Features>, b: seq<Features>) {
    SameGroupColumns(a, b) &&
    forall k :: 0 <= k < |a| ==>
      a[k].dayPart == b[k].dayPart && a[k].weatherFlags == b[k].weatherFlags && a[k].holidayFlag == b[k].holidayFlag
  }

  lemma FlagColumnsTransfer(a: seq<Features>, b: seq<Features>, holidays: set<Date>, timeOfDay: int -> string)
    requires SameFlagColumns(a, b)
    requires DayPartColumns(a, timeOfDay) && WeatherFlagColumns(a) && HolidayColumn(a, holidays)
    ensures DayPartColumns(b, timeOfDay) && WeatherFlagColumns(b) && HolidayColumn(b, holidays)
  {
  }

  /** Assigning the codes keeps every earlier column. */
  lemma CodesTransfer(j: seq<Joined>, a: seq<Features>, b: seq<Features>, table: seq<FlightCols>,
                      holidays: set<Date>, timeOfDay: int -> string)
    requires |a| == |b| == |j| && table == FlightColumns(a)
    requires forall k :: 0 <= k < |b| ==> b[k] == a[k].(codes := CodesOf(table, a[k].flight))
    requires KeepsFlightColumns(j, a) && FilledWeather(j, a) && LabelColumn(a) && CalendarColumns(j, a)
    requires TrafficColumns(a) && RouteColumns(a)
    requires DayPartColumns(a, timeOfDay) && WeatherFlagColumns(a) && HolidayColumn(a, holidays)
    ensures KeepsFlightColumns(j, b) && FilledWeather(j, b) && LabelColumn(b) && CalendarColumns(j, b)
    ensures TrafficColumns(b) && RouteColumns(b)
    ensures DayPartColumns(b, timeOfDay) && WeatherFlagColumns(b) && HolidayColumn(b, holidays)
    ensures CodeColumns(b)
  {
    assert SameFlagColumns(a, b);
    RowColumnsTransfer(j, a, b);
    GroupColumnsTransfer(a, b);
    FlagColumnsTransfer(a, b, holidays, timeOfDay);
    assert FlightColumns(b) == table;
  }

  lemma RowColumnsTransfer(j: seq<Joined>, a: seq<Features>, b: seq<Features>)
    requires SameRowColumns(a, b)
    requires KeepsFlightColumns(j, a) && FilledWeather(j, a) && LabelColumn(a) && CalendarColumns(j, a)
    ensures KeepsFlightColumns(j, b) && FilledWeather(j, b) && LabelColumn(b) && CalendarColumns(j, b)
  {
  }

  lemma GroupColumnsTransfer(a: seq<Features>, b: seq<Features>)
    requires SameGroupColumns(a, b)
    requires TrafficColumns(a) && RouteColumns(a)
    ensures TrafficColumns(b) && RouteColumns(b)
  {
    assert DepKeys(a) == DepKeys(b) && ArrKeys(a) == ArrKeys(b) && RouteKeys(a) == RouteKeys(b);
  }

  /** The traffic pass keeps the earlier columns and fills the traffic
      columns from the table's own keys. */
  lemma TrafficStep(a: seq<Features>, b: seq<Features>)
    requires |a| == |b|
    requires forall k :: 0 <= k < |b| ==>
      b[k] == a[k].(traffic := TrafficCols(multiset(DepKeys(a))[(a[k].flight.flDate, a[k].flight.origin)],
                                           multiset(ArrKeys(a))[(a[k].flight.flDate, a[k].flight.dest)]))
    ensures SameRowColumns(a, b) && TrafficColumns(b)
  {
    assert DepKeys(a) == DepKeys(b) && ArrKeys(a) == ArrKeys(b);
  }

  /** The route pass keeps the earlier columns and the traffic. */
  lemma RouteStep(a: seq<Features>, b: seq<Features>)
    requires |a| == |b|
    requires forall k :: 0 <= k < |b| ==>
      b[k] == a[k].(route := a[k].route.(route := RouteOf(a[k].flight.origin, a[k].flight.dest)))
    requires TrafficColumns(a)
    ensures SameRowColumns(a, b) && TrafficColumns(b)
    ensures forall k :: 0 <= k < |b| ==> b[k].route.route == RouteOf(b[k].flight.origin, b[k].flight.dest)
  {
    assert DepKeys(a) == DepKeys(b) && ArrKeys(a) == ArrKeys(b);
  }

  /** The popularity pass keeps the earlier columns and completes the route
      columns. */
  lemma PopularityStep(a: seq<Features>, b: seq<Features>)
    requires |a| == |b|
    requires forall k :: 0 <= k < |b| ==>
      b[k] == a[k].(route := a[k].route.(popularity := multiset(RouteKeys(a))[a[k].route.route]))
    requires TrafficColumns(a)
    requires forall k :: 0 <= k < |a| ==> a[k].route.route == RouteOf(a[k].flight.origin, a[k].flight.dest)
    ensures SameRowColumns(a, b) && TrafficColumns(b) && RouteColumns(b)
  {
    assert DepKeys(a) == DepKeys(b) && ArrKeys(a) == ArrKeys(b) && RouteKeys(a) == RouteKeys(b);
  }

  lemma SameRowColumnsTrans(a: seq<Features>, b: seq<Features>, c: seq<Features>)
    requires SameRowColumns(a, b) && SameRowColumns(b, c)
    ensures SameRowColumns(a, c)
  {
  }

  /** The group passes: the airport traffic and route columns. */
  method DeriveGroupColumns(t: array<Features>, j: seq<Joined>)
    requires t.Length == |j|
    requires KeepsFlightColumns(j, t[..]) && FilledWeather(j, t[..])
    requires LabelColumn(t[..]) && CalendarColumns(j, t[..])
    modifies t
    ensures KeepsFlightColumns(j, t[..]) && FilledWeather(j, t[..])
    ensures LabelColumn(t[..]) && CalendarColumns(j, t[..])
    ensures TrafficColumns(t[..]) && RouteColumns(t[..])
  {
    ghost var s0 := t[..];
    AssignTraffic(t, multiset(DepKeys(t[..])), multiset(ArrKeys(t[..])));
    ghost var s1 := t[..];
    TrafficStep(s0, s1);
    AssignRoute(t);
    ghost var s2 := t[..];
    RouteStep(s1, s2);
    AssignPopularity(t, multiset(RouteKeys(t[..])));
    ghost var s3 := t[..];
    PopularityStep(s2, s3);
    SameRowColumnsTrans(s0, s1, s2);
    SameRowColumnsTrans(s0, s2, s3);
    RowColumnsTransfer(j, s0, s3);
  }

  /** Each flag pass keeps the earlier columns and the flags already set. */
  lemma DayPartStep(a: seq<Features>, b: seq<Features>, timeOfDay: int -> string)
    requires |a| == |b|
    requires forall k :: 0 <= k < |b| ==> b[k] == a[k].(dayPart := DayPartOf(timeOfDay(a[k].calendar.depHour)))
    requires TrafficColumns(a) && RouteColumns(a)
    ensures SameGroupColumns(a, b) && DayPartColumns(b, timeOfDay)
  {
  }

  lemma WeatherFlagStep(a: seq<Features>, b: seq<Features>, timeOfDay: int -> string)
    requires |a| == |b|
    requires forall k :: 0 <= k < |b| ==> b[k] == a[k].(weatherFlags := WeatherFlagsOf(a[k].originObs, a[k].destObs))
    requires DayPartColumns(a, timeOfDay)
    ensures SameGroupColumns(a, b) && DayPartColumns(b, timeOfDay) && WeatherFlagColumns(b)
  {
  }

  lemma HolidayStep(a: seq<Features>, b: seq<Features>, holidays: set<Date>, timeOfDay: int -> string)
    requires |a| == |b|
    requires forall k :: 0 <= k < |b| ==> b[k] == a[k].(holidayFlag := B2I(a[k].flight.flDate in holidays))
    requires DayPartColumns(a, timeOfDay) && WeatherFlagColumns(a)
    ensures SameGroupColumns(a, b) && DayPartColumns(b, timeOfDay) && WeatherFlagColumns(b) && HolidayColumn(b, holidays)
  {
  }

  lemma SameGroupColumnsTrans(a: seq<Features>, b: seq<Features>, c: seq<Features>)
    requires SameGroupColumns(a, b) && SameGroupColumns(b, c)
    ensures SameGroupColumns(a, c)
  {
  }

  /** The flag passes: the day-part, weather and holiday flags. */
  method DeriveFlagColumns(t: array<Features>, j: seq<Joined>, holidays: set<Date>, timeOfDay: int -> string)
    requires t.Length == |j|
    requires KeepsFlightColumns(j, t[..]) && FilledWeather(j, t[..])
    requires LabelColumn(t[..]) && CalendarColumns(j, t[..])
    requires TrafficColumns(t[..]) && RouteColumns(t[..])
    modifies t
    ensures KeepsFlightColumns(j, t[..]) && FilledWeather(j, t[..])
    ensures LabelColumn(t[..]) && CalendarColumns(j, t[..])
    ensures TrafficColumns(t[..]) && RouteColumns(t[..])
    ensures DayPartColumns(t[..], timeOfDay) && WeatherFlagColumns(t[..]) && HolidayColumn(t[..], holidays)
  {
    ghost var s0 := t[..];
    AssignDayParts(t, timeOfDay);
    ghost var s1 := t[..];
    DayPartStep(s0, s1, timeOfDay);
    AssignWeatherFlags(t);
    ghost var s2 := t[..];
    WeatherFlagStep(s1, s2, timeOfDay);
    AssignHoliday(t, holidays);
    ghost var s3 := t[..];
    HolidayStep(s2, s3, holidays, timeOfDay);
    SameGroupColumnsTrans(s0, s1, s2);
    SameGroupColumnsTrans(s0, s2, s3);
    RowColumnsTransfer(j, s0, s3);
    GroupColumnsTransfer(s0, s3);
  }

  /** The last passes: the category codes. */
  method DeriveCodeColumns(t: array<Features>, j: seq<Joined>, holidays: set<Date>, timeOfDay: int -> string)
    requires t.Length == |j|
    requires KeepsFlightColumns(j, t[..]) && FilledWeather(j, t[..])
    requires LabelColumn(t[..]) && CalendarColumns(j, t[..])
    requires TrafficColumns(t[..]) && RouteColumns(t[..])
    requires DayPartColumns(t[..], timeOfDay) && WeatherFlagColumns(t[..]) && HolidayColumn(t[..], holidays)
    modifies t
    ensures KeepsFlightColumns(j, t[..]) && FilledWeather(j, t[..])
    ensures LabelColumn(t[..]) && CalendarColumns(j, t[..])
    ensures TrafficColumns(t[..]) && RouteColumns(t[..])
    ensures DayPartColumns(t[..], timeOfDay) && WeatherFlagColumns(t[..]) && HolidayColumn(t[..], holidays)
    ensures CodeColumns(t[..])
  {
    ghost var before := t[..];
    var table := FlightColumns(t[..]);
    AssignCodes(t, table);
    CodesTransfer(j, before, t[..], table, holidays, timeOfDay);
  }

  // ---------------------------------------------------------------------
  // Properties of the returned table
  // ---------------------------------------------------------------------

  /** Imputation keeps present values, gives a missing value the median of
      the column's present values, and leaves no gap in a column that has
      at least one value. */
  lemma ImputedWeather(j: seq<Joined>, out: seq<Features>, k: nat, f: nat)
    requires KeepsFlightColumns(j, out) && FilledWeather(j, out)
    requires k < |j| && f < 10
    ensures j[k].originObs[f].Some? ==> out[k].originObs[f] == j[k].originObs[f]
    ensures j[k].originObs[f].None? ==> out[k].originObs[f] == Median(Present(j, true, f))
    ensures (exists i :: 0 <= i < |j| && j[i].originObs[f].Some?) ==> out[k].originObs[f].Some?
    ensures j[k].destObs[f].Some? ==> out[k].destObs[f] == j[k].destObs[f]
    ensures j[k].destObs[f].None? ==> out[k].destObs[f] == Median(Present(j, false, f))
    ensures (exists i :: 0 <= i < |j| && j[i].destObs[f].Some?) ==> out[k].destObs[f].Some?
  {
    if i :| 0 <= i < |j| && j[i].originObs[f].Some? {
      assert j[i].originObs[f].value in Present(j, true, f);
    }
    if i :| 0 <= i < |j| && j[i].destObs[f].Some? {
      assert j[i].destObs[f].value in Present(j, false, f);
    }
  }

  /** A filled value lies within the range of the column's present values:
      some row of the joined table has a value no larger and some row one
      no smaller, on either side. */
  lemma FilledValueInRange(j: seq<Joined>, out: seq<Features>, k: nat, f: nat, origin: bool)
    requires KeepsFlightColumns(j, out) && FilledWeather(j, out)
    requires k < |j| && f < 10
    requires Side(j[k], origin)[f].None? && exists i :: 0 <= i < |j| && Side(j[i], origin)[f].Some?
    ensures FilledSide(out[k], origin)[f].Some?
    ensures exists i :: 0 <= i < |j| && Side(j[i], origin)[f].Some? && Side(j[i], origin)[f].value <= FilledSide(out[k], origin)[f].value
    ensures exists i :: 0 <= i < |j| && Side(j[i], origin)[f].Some? && FilledSide(out[k], origin)[f].value <= Side(j[i], origin)[f].value
  {
    FilledIsMedian(j, out, k, f, origin);
    MedianBetweenRows(j, origin, f);
  }

  /** A missing cell takes the median of its column's present values. */
  lemma FilledIsMedian(j: seq<Joined>, out: seq<Features>, k: nat, f: nat, origin: bool)
    requires KeepsFlightColumns(j, out) && FilledWeather(j, out)
    requires k < |j| && f < 10 && Side(j[k], origin)[f].None?
    ensures FilledSide(out[k], origin)[f] == Median(Present(j, origin, f))
  {
    ImputedWeather(j, out, k, f);
  }

  /** A column with some present value has a median, and rows of the
      joined table bound it from below and from above. */
  lemma MedianBetweenRows(j: seq<Joined>, origin: bool, f: nat)
    requires f < 10 && exists i :: 0 <= i < |j| && Side(j[i], origin)[f].Some?
    ensures Median(Present(j, origin, f)).Some?
    ensures exists i :: 0 <= i < |j| && Side(j[i], origin)[f].Some? && Side(j[i], origin)[f].value <= Median(Present(j, origin, f)).value
    ensures exists i :: 0 <= i < |j| && Side(j[i], origin)[f].Some? && Median(Present(j, origin, f)).value <= Side(j[i], origin)[f].value
  {
    var xs := Present(j, origin, f);
    var ks := PresentRows(j, origin, f);
    var i0 :| 0 <= i0 < |j| && Side(j[i0], origin)[f].Some?;
    assert Side(j[i0], origin)[f].value in xs;
    MedianWithinRange(xs);
    var lo :| 0 <= lo < |xs| && xs[lo] <= Median(xs).value;
    var hi :| 0 <= hi < |xs| && Median(xs).value <= xs[hi];
    assert Side(j[ks[lo]], origin)[f] == Some(xs[lo]);
    assert Side(j[ks[hi]], origin)[f] == Some(xs[hi]);
  }

  /** The origin (or destination) observation of an output row. */
  function FilledSide(x: Features, origin: bool): Obs {
    if origin then x.originObs else x.destObs
  }

  /** Every row counts itself, so both traffic columns are at least 1. */
  lemma TrafficAtLeastOne(out: seq<Features>, k: nat)
    requires TrafficColumns(out) && k < |out|
    ensures out[k].traffic.depTraffic >= 1 && out[k].traffic.arrTraffic >= 1
  {
    assert DepKeys(out)[k] in multiset(DepKeys(out));
    assert ArrKeys(out)[k] in multiset(ArrKeys(out));
  }

  /** With dash-free airport codes, ROUTE_POPULARITY is the number of rows
      of the whole table, of any date, with the same ORIGIN and DEST. */
  lemma PopularityCountsPairs(out: seq<Features>, k: nat)
    requires RouteColumns(out) && k < |out|
    requires forall i :: 0 <= i < |out| ==> NoDash(out[i].flight.origin)
    ensures out[k].route.popularity == multiset(PairKeys(out))[(out[k].flight.origin, out[k].flight.dest)]
  {
    RouteKeyCount(RouteKeys(out), PairKeys(out), out[k].flight.origin, out[k].flight.dest);
  }

  /** The three codes are integers in [0, number of distinct values), equal
      exactly for equal strings, and ordered as the strings are. */
  lemma CodesAreSortedPositions(out: seq<Features>, k: nat, l: nat)
    requires CodeColumns(out) && k < |out| && l < |out|
    ensures out[k].codes.airlineCode.VInt? && 0 <= out[k].codes.airlineCode.i < |Distinct(Airlines(FlightColumns(out)))|
    ensures out[k].codes.originCode.VInt? && 0 <= out[k].codes.originCode.i < |Distinct(Origins(FlightColumns(out)))|
    ensures out[k].codes.destCode.VInt? && 0 <= out[k].codes.destCode.i < |Distinct(Dests(FlightColumns(out)))|
    ensures out[k].codes.airlineCode == out[l].codes.airlineCode <==> out[k].flight.airline == out[l].flight.airline
    ensures LexLess(out[k].flight.airline, out[l].flight.airline) ==> out[k].codes.airlineCode.i < out[l].codes.airlineCode.i
    ensures out[k].codes.originCode == out[l].codes.originCode <==> out[k].flight.origin == out[l].flight.origin
    ensures LexLess(out[k].flight.origin, out[l].flight.origin) ==> out[k].codes.originCode.i < out[l].codes.originCode.i
    ensures out[k].codes.destCode == out[l].codes.destCode <==> out[k].flight.dest == out[l].flight.dest
    ensures LexLess(out[k].flight.dest, out[l].flight.dest) ==> out[k].codes.destCode.i < out[l].codes.destCode.i
  {
    var table := FlightColumns(out);
    var airlines, origins, dests := Distinct(Airlines(table)), Distinct(Origins(table)), Distinct(Dests(table));
    assert Airlines(table)[k] == out[k].flight.airline && Airlines(table)[l] == out[l].flight.airline;
    assert Origins(table)[k] == out[k].flight.origin && Origins(table)[l] == out[l].flight.origin;
    assert Dests(table)[k] == out[k].flight.dest && Dests(table)[l] == out[l].flight.dest;
    CodeInRange(airlines, out[k].flight.airline);
    CodeInRange(origins, out[k].flight.origin);
    CodeInRange(dests, out[k].flight.dest);
    if out[k].flight.airline != out[l].flight.airline {
      CodeInjective(airlines, out[k].flight.airline, out[l].flight.airline);
    }
    if LexLess(out[k].flight.airline, out[l].flight.airline) {
      CodeMonotone(airlines, out[k].flight.airline, out[l].flight.airline);
    }
    if out[k].flight.origin != out[l].flight.origin {
      CodeInjective(origins, out[k].flight.origin, out[l].flight.origin);
    }
    if LexLess(out[k].flight.origin, out[l].flight.origin) {
      CodeMonotone(origins, out[k].flight.origin, out[l].flight.origin);
    }
    if out[k].flight.dest != out[l].flight.dest {
      CodeInjective(dests, out[k].flight.dest, out[l].flight.dest);
    }
    if LexLess(out[k].flight.dest, out[l].flight.dest) {
      CodeMonotone(dests, out[k].flight.dest, out[l].flight.dest);
    }
  }
}
