/** Live feature assembly and the inference decision (backend/predictor/predictor.py).

    The two HTTP services are oracles: `FlightApi` gives the outcome of one
    Aviationstack query, `WeatherApi` the outcome of one Weatherstack query
    for a location. The environment switches are a `Config` value. The
    trained pipeline is the function `proba` stored in a `Bundle`. */
module Predictor {
  import opened Common
  import opened Calendar

  /** PREDICTOR_SIMULATE and PREDICTOR_ALLOW_FALLBACK. */
  datatype Config = Config(simulate: bool, allowFallback: bool)

  // ---------------------------------------------------------------------
  // Flight lookup

  /** The two query shapes sent to Aviationstack (besides the access key and limit 1). */
  datatype Query = ByFlightIata(flightIata: string) | ByAirline(airlineIata: string, flightNumber: string)

  /** The fields of the first record of a non-empty `data` list that the code
      reads; `None` stands for a missing key, a missing sub-object or JSON null. */
  datatype ApiFlight = ApiFlight(
    depScheduled: Option<string>, depEstimated: Option<string>, depActual: Option<string>,
    depIata: Option<string>, arrIata: Option<string>, airlineIata: Option<string>)

  /** What one attempt can come to: a non-2xx status, a transport failure
      (RequestException, undecodable JSON included), a body with an "error"
      key, a body whose "data" is missing or empty, or a first record. */
  datatype AttemptOutcome = HttpError | RequestError | ApiError | NoData | Data(first: ApiFlight)

  type FlightApi = Query -> AttemptOutcome

  /** The flight dict returned by get_flight_details. */
  datatype FlightInfo = FlightInfo(
    airline: string, origin: string, dest: string, depHour: int,
    flDate: string, dayOfWeek: int, month: int)

  /** get_flight_details' result: the dict, `None`, or the ValueError that
      `strptime` raises while the dict is being built. */
  datatype FlightLookup = Found(info: FlightInfo) | NotFound | DateError

  /** Python truthiness of an optional string. */
  predicate Truthy(o: Option<string>) {
    o.Some? && o.value != ""
  }

  /** `o or fallback` for an optional string. */
  function OrElse(o: Option<string>, fallback: string): (r: string)
    ensures Truthy(o) ==> r == o.value
    ensures !Truthy(o) ==> r == fallback
  {
    if Truthy(o) then o.value else fallback
  }

  /** `a or b or c`: the first truthy operand, or, when there is none, the last. */
  function FirstTruthy(a: Option<string>, b: Option<string>, c: Option<string>): (r: Option<string>)
    ensures Truthy(r) <==> Truthy(a) || Truthy(b) || Truthy(c)
    ensures Truthy(a) ==> r == a
    ensures !Truthy(a) && Truthy(b) ==> r == b
    ensures !Truthy(a) && !Truthy(b) ==> r == c
  {
    if Truthy(a) then a else if Truthy(b) then b else c
  }

  /** The split shape `UA245 -> UA + 245`: length at least 3, two letters,
      then only digits. */
  predicate SplitPattern(flightNumber: string) {
    |flightNumber| >= 3 && IsAlpha(flightNumber[..2]) && IsDigits(flightNumber[2..])
  }

  /** The ordered list of attempts: the exact designator first, then the
      airline/number split exactly when the designator has that shape. */
  function Attempts(flightNumber: string): (qs: seq<Query>)
    ensures 1 <= |qs| <= 2
    ensures qs[0] == ByFlightIata(flightNumber)
    ensures |qs| == 2 <==> SplitPattern(flightNumber)
    ensures |qs| == 2 ==> qs[1] == ByAirline(Upper(flightNumber[..2]), flightNumber[2..])
  {
    [ByFlightIata(flightNumber)]
      + (if SplitPattern(flightNumber) then [ByAirline(Upper(flightNumber[..2]), flightNumber[2..])] else [])
  }

  /** The first record any attempt returns, in attempt order. */
  function FirstData(qs: seq<Query>, api: FlightApi): (r: Option<ApiFlight>)
    ensures r.Some? ==> exists i :: 0 <= i < |qs| && api(qs[i]) == Data(r.value)
                          && forall j :: 0 <= j < i ==> !api(qs[j]).Data?
    ensures r.None? <==> forall i :: 0 <= i < |qs| ==> !api(qs[i]).Data?
  {
    if qs == [] then None
    else if api(qs[0]).Data? then Some(api(qs[0]).first)
    else
      var rest := FirstData(qs[1..], api);
      assert forall i :: 1 <= i < |qs| ==> qs[i] == qs[1..][i - 1];
      if rest.Some? then
        ghost var k :| 0 <= k < |qs[1..]| && api(qs[1..][k]) == Data(rest.value)
                         && forall j :: 0 <= j < k ==> !api(qs[1..][j]).Data?;
        assert api(qs[k + 1]) == Data(rest.value);
        rest
      else rest
  }

  /** The queries actually sent: every attempt up to and including the first
      that returns a record. */
  function CallsMade(qs: seq<Query>, api: FlightApi): (made: seq<Query>)
    ensures made <= qs
    ensures forall i :: 0 <= i < |made| - 1 ==> !api(made[i]).Data?
    ensures |made| < |qs| ==> made != [] && api(made[|made| - 1]).Data?
  {
    if qs == [] then []
    else if api(qs[0]).Data? then [qs[0]]
    else [qs[0]] + CallsMade(qs[1..], api)
  }

  /** The two-letter airline of the dummy record. */
  function DummyAirline(flightNumber: string): (a: string)
    ensures |a| == 2 && IsAlpha(a)
    ensures forall i :: 0 <= i < 2 ==> !('a' <= a[i] <= 'z')
    ensures |flightNumber| >= 2 && IsAlpha(flightNumber[..2]) ==> a == Upper(flightNumber[..2])
    ensures !(|flightNumber| >= 2 && IsAlpha(flightNumber[..2])) ==> a == "UA"
  {
    if |flightNumber| >= 2 && IsAlpha(Take(flightNumber, 2)) then Upper(Take(flightNumber, 2)) else "UA"
  }

  /** The record built for simulate mode and for the fallback: SFO to LAX at noon. */
  function DummyFlight(flightNumber: string, flightDate: string): (r: FlightLookup)
    ensures r != NotFound
    ensures r.DateError? <==> ParseDate(flightDate).None?
    ensures r.Found? ==> r.info.origin == "SFO" && r.info.dest == "LAX" && r.info.depHour == 12
    ensures r.Found? ==> r.info.airline == DummyAirline(flightNumber) && r.info.flDate == flightDate
    ensures r.Found? ==> r.info.month == ParseDate(flightDate).value.month
  {
    match ParseDate(flightDate)
    case None => DateError
    case Some(d) =>
      Found(FlightInfo(DummyAirline(flightNumber), "SFO", "LAX", 12,
                       flightDate, Weekday(d), MonthField(flightDate)))
  }

  // DEP_HOUR: `int(ts.split("T")[1][:2]) if ts else 12`, 12 on any exception.

  function IndexOf(s: string, c: char): (r: Option<nat>)
    ensures r.Some? ==> r.value < |s| && s[r.value] == c && forall j :: 0 <= j < r.value ==> s[j] != c
    ensures r.None? ==> forall j :: 0 <= j < |s| ==> s[j] != c
  {
    if s == [] then None
    else if s[0] == c then Some(0)
    else match IndexOf(s[1..], c)
      case None => None
      case Some(k) => Some(k + 1)
  }

  /** `ts.split("T")[1]`: the text between the first `T` and the next one;
      None where the index raises (no `T` at all). */
  function SecondTField(ts: string): (r: Option<string>)
    ensures r.None? <==> forall j :: 0 <= j < |ts| ==> ts[j] != 'T'
  {
    match IndexOf(ts, 'T')
    case None => None
    case Some(i) =>
      var rest := ts[i + 1..];
      match IndexOf(rest, 'T')
      case None => Some(rest)
      case Some(k) => Some(rest[..k])
  }

  /** The characters this model lets `int()` strip around a number: the
      ASCII blanks, U+001C-U+001F, U+0085 and U+00A0. Python also strips
      U+1680, U+2000-U+200A, U+2028, U+2029, U+202F, U+205F and U+3000, and
      accepts non-ASCII decimal digits; the model does neither. */
  predicate IsPySpace(c: char) {
    c == ' ' || (9 <= c as int <= 13) || (28 <= c as int <= 31) || c as int == 0x85 || c as int == 0xA0
  }

  function StripLeft(s: string): (r: string)
    ensures |r| <= |s| && r == s[|s| - |r|..]
  {
    if s != [] && IsPySpace(s[0]) then StripLeft(s[1..]) else s
  }

  function StripRight(s: string): (r: string)
    ensures |r| <= |s| && r == s[..|r|]
  {
    if s != [] && IsPySpace(s[|s| - 1]) then StripRight(s[..|s| - 1]) else s
  }

  function Decimal(s: string): int
    decreases |s|
  {
    if s == [] then 0 else 10 * Decimal(s[..|s| - 1]) + DigitValue(s[|s| - 1])
  }

  /** Python's `int(t)` for a string of at most two characters: optional
      surrounding blanks, an optional sign, and at least one digit; None
      where it raises. */
  function PyInt(t: string): (r: Option<int>)
    requires |t| <= 2
    ensures IsDigits(t) ==> r == Some(Decimal(t))
    ensures (forall j :: 0 <= j < |t| ==> !IsAsciiDigit(t[j])) ==> r.None?
    ensures r.Some? ==> -9 <= r.value <= 99
  {
    var u := StripRight(StripLeft(t));
    StripKeepsDigits(t);
    StripTakesFrom(t);
    if |u| >= 2 && (u[0] == '+' || u[0] == '-') && IsDigits(u[1..]) then
      DecimalOfTwo(u[1..]);
      Some(if u[0] == '-' then -Decimal(u[1..]) else Decimal(u[1..]))
    else if IsDigits(u) then
      DecimalOfTwo(u);
      Some(Decimal(u))
    else None
  }

  /** One digit is at most 9, two digits at most 99. */
  lemma DecimalOfTwo(s: string)
    requires IsDigits(s) && |s| <= 2
    ensures 0 <= Decimal(s) <= if |s| == 1 then 9 else 99
  {
    if |s| == 2 {
      assert IsAsciiDigit(s[0]) && IsAsciiDigit(s[1]);
      assert s[..1][0] == s[0];
    }
  }

  /** Stripping leaves a digit string as it is. */
  lemma StripKeepsDigits(t: string)
    ensures IsDigits(t) ==> StripRight(StripLeft(t)) == t
  {
    if IsDigits(t) {
      assert !IsPySpace(t[0]);
      assert StripLeft(t) == t;
      assert !IsPySpace(t[|t| - 1]);
    }
  }

  /** Stripping only removes characters: what is left comes from `t`. */
  lemma StripTakesFrom(t: string)
    ensures forall j :: 0 <= j < |StripRight(StripLeft(t))| ==> StripRight(StripLeft(t))[j] in t
  {
    var l := StripLeft(t);
    var u := StripRight(l);
    var off := |t| - |l|;
    assert l == t[off..];
    assert u == l[..|u|];
    forall j | 0 <= j < |u|
      ensures u[j] in t
    {
      assert t[off + j] == u[j];
    }
  }

  /** The departure hour read from a truthy timestamp: `int()` of at most
      two characters, so never more than 99 nor less than -9. */
  function HourOfTimestamp(ts: string): (h: int)
    ensures (forall j :: 0 <= j < |ts| ==> ts[j] != 'T') ==> h == 12
    ensures -9 <= h <= 99
  {
    match SecondTField(ts)
    case None => 12
    case Some(field) =>
      match PyInt(Take(field, 2))
      case None => 12
      case Some(h) => h
  }

  /** DEP_HOUR from the first truthy of scheduled, estimated and actual. */
  function DepHour(f: ApiFlight): (h: int)
    ensures Truthy(f.depScheduled) ==> h == HourOfTimestamp(f.depScheduled.value)
    ensures !Truthy(f.depScheduled) && Truthy(f.depEstimated) ==> h == HourOfTimestamp(f.depEstimated.value)
    ensures !Truthy(f.depScheduled) && !Truthy(f.depEstimated) && Truthy(f.depActual) ==> h == HourOfTimestamp(f.depActual.value)
    ensures !Truthy(f.depScheduled) && !Truthy(f.depEstimated) && !Truthy(f.depActual) ==> h == 12
  {
    var ts := FirstTruthy(f.depScheduled, f.depEstimated, f.depActual);
    if Truthy(ts) then HourOfTimestamp(ts.value) else 12
  }

  /** The record built from an API record, with defaults field by field. */
  function FromApi(flightNumber: string, flightDate: string, f: ApiFlight): (r: FlightLookup)
    ensures r != NotFound
    ensures r.DateError? <==> ParseDate(flightDate).None?
    ensures r.Found? ==> r.info.depHour == DepHour(f) && r.info.flDate == flightDate
    ensures r.Found? ==> r.info.month == ParseDate(flightDate).value.month
    ensures r.Found? ==> r.info.dayOfWeek == Weekday(ParseDate(flightDate).value)
    ensures r.Found? ==> (Truthy(f.depIata) ==> r.info.origin == f.depIata.value) && (!Truthy(f.depIata) ==> r.info.origin == "SFO")
    ensures r.Found? ==> (Truthy(f.arrIata) ==> r.info.dest == f.arrIata.value) && (!Truthy(f.arrIata) ==> r.info.dest == "LAX")
    ensures r.Found? && Truthy(f.airlineIata) ==> r.info.airline == f.airlineIata.value
    ensures r.Found? && !Truthy(f.airlineIata) ==> r.info.airline == Upper(Take(flightNumber, 2))
  {
    match ParseDate(flightDate)
    case None => DateError
    case Some(d) =>
      Found(FlightInfo(OrElse(f.airlineIata, Upper(Take(flightNumber, 2))),
                       OrElse(f.depIata, "SFO"), OrElse(f.arrIata, "LAX"),
                       DepHour(f), flightDate, Weekday(d), MonthField(flightDate)))
  }

  /** get_flight_details as a function of the switches and the API's answers. */
  function FlightDetails(cfg: Config, flightNumber: string, flightDate: string, api: FlightApi): (r: FlightLookup)
    ensures r == NotFound <==> !cfg.simulate && !cfg.allowFallback && FirstData(Attempts(flightNumber), api).None?
    ensures r.Found? ==> ParseDate(flightDate).Some? && r.info.flDate == flightDate
    ensures r.Found? ==> r.info.month == ParseDate(flightDate).value.month
    ensures !cfg.simulate && FirstData(Attempts(flightNumber), api).Some? ==>
      r == FromApi(flightNumber, flightDate, FirstData(Attempts(flightNumber), api).value)
  {
    if cfg.simulate then DummyFlight(flightNumber, flightDate)
    else match FirstData(Attempts(flightNumber), api)
      case Some(f) => FromApi(flightNumber, flightDate, f)
      case None => if cfg.allowFallback then DummyFlight(flightNumber, flightDate) else NotFound
  }

  /** get_flight_details: builds the attempts, tries them in order, stops at
      the first record, and falls back or gives up when none answers. `made`
      is the list of queries sent. */
  method GetFlightDetails(cfg: Config, flightNumber: string, flightDate: string, api: FlightApi)
    returns (r: FlightLookup, made: seq<Query>)
    ensures r == FlightDetails(cfg, flightNumber, flightDate, api)
    ensures cfg.simulate ==> made == []
    ensures !cfg.simulate ==> made == CallsMade(Attempts(flightNumber), api)
  {
    made := [];
    if cfg.simulate {
      r := DummyFlight(flightNumber, flightDate);
      return;
    }
    var attempts := [ByFlightIata(flightNumber)];
    if |flightNumber| >= 3 && IsAlpha(flightNumber[..2]) && IsDigits(flightNumber[2..]) {
      attempts := attempts + [ByAirline(Upper(flightNumber[..2]), flightNumber[2..])];
    }
    assert attempts == Attempts(flightNumber);
    var i := 0;
    while i < |attempts|
      invariant 0 <= i <= |attempts|
      invariant forall k :: 0 <= k < i ==> !api(attempts[k]).Data?
      invariant made == attempts[..i]
    {
      var outcome := api(attempts[i]);
      made := made + [attempts[i]];
      if outcome.Data? {
        StopsAtFirstRecord(attempts, api, i);
        assert made == attempts[..i + 1];
        r := FromApi(flightNumber, flightDate, outcome.first);
        return;
      }
      i := i + 1;
    }
    NoRecordAnywhere(attempts, api);
    assert made == attempts;
    if cfg.allowFallback {
      r := DummyFlight(flightNumber, flightDate);
    } else {
      r := NotFound;
    }
  }

  /** The search stops at the first attempt that returns a record. */
  lemma StopsAtFirstRecord(qs: seq<Query>, api: FlightApi, i: nat)
    requires i < |qs| && api(qs[i]).Data?
    requires forall k :: 0 <= k < i ==> !api(qs[k]).Data?
    ensures FirstData(qs, api) == Some(api(qs[i]).first)
    ensures CallsMade(qs, api) == qs[..i + 1]
  {
    CallsUpToFirst(qs, api, i);
    var r := FirstData(qs, api);
    assert r.Some?;
    var k :| 0 <= k < |qs| && api(qs[k]) == Data(r.value)
             && forall j :: 0 <= j < k ==> !api(qs[j]).Data?;
    assert k == i;
  }

  /** The attempts sent are those up to and including the first record. */
  lemma {:induction false} CallsUpToFirst(qs: seq<Query>, api: FlightApi, i: nat)
    requires i < |qs| && api(qs[i]).Data?
    requires forall k :: 0 <= k < i ==> !api(qs[k]).Data?
    ensures CallsMade(qs, api) == qs[..i + 1]
  {
    if i == 0 {
      assert qs[..1] == [qs[0]];
    } else {
      var rest := qs[1..];
      assert !api(qs[0]).Data?;
      forall k | 0 <= k < i - 1
        ensures !api(rest[k]).Data?
      {
        assert rest[k] == qs[k + 1];
      }
      assert rest[i - 1] == qs[i];
      CallsUpToFirst(rest, api, i - 1);
      assert qs[..i + 1] == [qs[0]] + rest[..i];
    }
  }

  /** Without any record, every attempt is sent and nothing is found. */
  lemma {:induction false} NoRecordAnywhere(qs: seq<Query>, api: FlightApi)
    requires forall k :: 0 <= k < |qs| ==> !api(qs[k]).Data?
    ensures FirstData(qs, api) == None
    ensures CallsMade(qs, api) == qs
  {
    if qs != [] {
      NoRecordAnywhere(qs[1..], api);
      assert qs == [qs[0]] + qs[1..];
    }
  }

  /** When no attempt returns a record, the result is the dummy record exactly
      when fallback is allowed, and `None` otherwise. */
  lemma FallbackPolicy(cfg: Config, flightNumber: string, flightDate: string, api: FlightApi)
    requires !cfg.simulate
    requires forall q :: q in Attempts(flightNumber) ==> !api(q).Data?
    ensures cfg.allowFallback ==> FlightDetails(cfg, flightNumber, flightDate, api) == DummyFlight(flightNumber, flightDate)
    ensures FlightDetails(cfg, flightNumber, flightDate, api) == NotFound <==> !cfg.allowFallback
  {
    var qs := Attempts(flightNumber);
    assert forall i :: 0 <= i < |qs| ==> qs[i] in qs;
    assert FirstData(qs, api).None?;
    if cfg.allowFallback {
      assert DummyFlight(flightNumber, flightDate).Found? || DummyFlight(flightNumber, flightDate).DateError?;
    }
  }

  /** The first record, when the exact-designator attempt answers, is that one. */
  lemma ExactAttemptFirst(cfg: Config, flightNumber: string, flightDate: string, api: FlightApi)
    requires !cfg.simulate && api(ByFlightIata(flightNumber)).Data?
    ensures FlightDetails(cfg, flightNumber, flightDate, api)
         == FromApi(flightNumber, flightDate, api(ByFlightIata(flightNumber)).first)
    ensures CallsMade(Attempts(flightNumber), api) == [ByFlightIata(flightNumber)]
  {
  }

  /** A valid date never makes the lookup raise; an invalid one makes every
      path that builds a record raise. */
  lemma {:induction false} DateErrorIffInvalid(cfg: Config, flightNumber: string, flightDate: string, api: FlightApi)
    ensures ParseDate(flightDate).Some? ==> FlightDetails(cfg, flightNumber, flightDate, api) != DateError
    ensures ParseDate(flightDate).None? ==> FlightDetails(cfg, flightNumber, flightDate, api) in {NotFound, DateError}
  {
  }

  /** Simulate mode: the dummy record with the date's weekday and month and no query sent. */
  lemma SimulatedRecord(cfg: Config, flightNumber: string, flightDate: string, api: FlightApi)
    requires cfg.simulate && ParseDate(flightDate).Some?
    ensures var d := ParseDate(flightDate).value;
      FlightDetails(cfg, flightNumber, flightDate, api)
        == Found(FlightInfo(DummyAirline(flightNumber), "SFO", "LAX", 12, flightDate, Weekday(d), d.month))
  {
  }

  /** A record's DEP_HOUR is the value of the two digits after the first `T`. */
  lemma HourOfTwoDigits(ts: string, i: nat)
    requires i + 2 < |ts| && ts[i] == 'T' && (forall j :: 0 <= j < i ==> ts[j] != 'T')
    requires IsAsciiDigit(ts[i + 1]) && IsAsciiDigit(ts[i + 2])
    ensures HourOfTimestamp(ts) == 10 * DigitValue(ts[i + 1]) + DigitValue(ts[i + 2])
  {
    var rest := ts[i + 1..];
    assert IndexOf(ts, 'T') == Some(i);
    var field := SecondTField(ts).value;
    assert field[..2] == [ts[i + 1], ts[i + 2]];
    var t := Take(field, 2);
    assert IsDigits(t);
    assert t[..1] == [ts[i + 1]];
    assert Decimal(t[..1]) == DigitValue(ts[i + 1]);
  }

  /** No truthy timestamp, or one without a `T`, gives hour 12. */
  lemma HourDefaults(f: ApiFlight)
    ensures !Truthy(f.depScheduled) && !Truthy(f.depEstimated) && !Truthy(f.depActual) ==> DepHour(f) == 12
    ensures var ts := FirstTruthy(f.depScheduled, f.depEstimated, f.depActual);
      Truthy(ts) && (forall j :: 0 <= j < |ts.value| ==> ts.value[j] != 'T') ==> DepHour(f) == 12
  {
  }

  /** The documented example: UA245 on 2024-03-10 in simulate mode. */
  lemma SimulateExample(api: FlightApi)
    ensures FlightDetails(Config(true, false), "UA245", "2024-03-10", api)
         == Found(FlightInfo("UA", "SFO", "LAX", 12, "2024-03-10", 6, 3))
  {
    SundayExample();
    assert Take("UA245", 2) == "UA";
    assert Upper("UA") == "UA";
  }

  // ---------------------------------------------------------------------
  // Weather lookup

  /** A scalar of the `current` object: missing or null, a number, or a
      value of another JSON type that the arithmetic rejects. */
  datatype Field = Absent | Num(x: real) | NonNumeric

  /** `weather_descriptions`: missing/falsy, a list (a `None` item is a
      non-string item, on which `.lower()` raises), or another value whose
      `str()` is `text`. */
  datatype Descriptions = NoDescriptions | DescList(items: seq<Option<string>>) | DescOther(text: string)

  datatype Current = Current(temperature: Field, precip: Field, windSpeed: Field, descriptions: Descriptions)

  /** A Weatherstack answer: non-2xx, a transport or JSON-decoding failure,
      or a decoded object whose `current` may be missing. */
  datatype WeatherResponse = WHttpError | WRequestError | WPayload(current: Option<Current>)

  type WeatherApi = string -> WeatherResponse

  datatype WeatherFeatures = WeatherFeatures(tempDiff: real, precip: real, snow: int, heavyWind: int)

  function DefaultWeather(): (w: WeatherFeatures)
    ensures w.tempDiff == 0.0 && w.precip == 0.0 && w.snow == 0 && w.heavyWind == 0
  {
    WeatherFeatures(0.0, 0.0, 0, 0)
  }

  /** `abs((temperature or 20) - 20)`. */
  function TempDiffOf(t: Field): (r: Option<real>)
    ensures t.Num? && t.x != 0.0 ==> r == Some(Abs(t.x - 20.0))
    ensures t.Absent? || t == Num(0.0) ==> r == Some(0.0)
    ensures r.None? <==> t.NonNumeric?
  {
    match t
    case Absent => Some(0.0)
    case Num(x) => Some(if x == 0.0 then 0.0 else Abs(x - 20.0))
    case NonNumeric => None
  }

  /** `float(precip or 0)`. */
  function PrecipOf(p: Field): (r: Option<real>)
    ensures p.Num? ==> r == Some(p.x)
    ensures p.Absent? ==> r == Some(0.0)
    ensures r.None? <==> p.NonNumeric?
  {
    match p
    case Absent => Some(0.0)
    case Num(x) => Some(x)
    case NonNumeric => None
  }

  /** `1 if (wind_speed or 0) > 25 else 0`. */
  function HeavyWindOf(w: Field): (r: Option<int>)
    ensures r.Some? ==> (r.value == 1 <==> w.Num? && w.x > 25.0)
    ensures r.Some? ==> r.value in {0, 1}
    ensures r.None? <==> w.NonNumeric?
  {
    match w
    case Absent => Some(0)
    case Num(x) => Some(B2I(x > 25.0))
    case NonNumeric => None
  }

  function AllSome(items: seq<Option<string>>): (r: bool)
    ensures r <==> forall i :: 0 <= i < |items| ==> items[i].Some?
  {
    if items == [] then true else items[0].Some? && AllSome(items[1..])
  }

  function LowerAll(items: seq<Option<string>>): (r: seq<string>)
    requires AllSome(items)
    ensures |r| == |items|
    ensures forall i :: 0 <= i < |items| ==> r[i] == Lower(items[i].value)
  {
    if items == [] then [] else [Lower(items[0].value)] + LowerAll(items[1..])
  }

  /** The lowercased description text, or None where `.lower()` raises. */
  function DescriptionText(d: Descriptions): (r: Option<string>)
    ensures r.None? <==> d.DescList? && exists i :: 0 <= i < |d.items| && d.items[i].None?
    ensures d.NoDescriptions? ==> r == Some("")
  {
    match d
    case NoDescriptions => Some("")
    case DescList(items) => if AllSome(items) then Some(JoinSpace(LowerAll(items))) else None
    case DescOther(text) => Some(Lower(text))
  }

  /** The four features from a decoded `current` object, or the default
      when any of the expressions raises. */
  function FeaturesOf(c: Current): (w: WeatherFeatures)
    ensures w.tempDiff >= 0.0
    ensures w.snow in {0, 1} && w.heavyWind in {0, 1}
    ensures (|| DescriptionText(c.descriptions).None?
             || c.temperature.NonNumeric?
             || c.precip.NonNumeric?
             || c.windSpeed.NonNumeric?) ==> w == DefaultWeather()
  {
    var desc := DescriptionText(c.descriptions);
    var t := TempDiffOf(c.temperature);
    var p := PrecipOf(c.precip);
    var w := HeavyWindOf(c.windSpeed);
    if desc.None? || t.None? || p.None? || w.None? then DefaultWeather()
    else WeatherFeatures(t.value, p.value, B2I(Contains(desc.value, "snow")), w.value)
  }

  /** get_weather_data for a location. */
  function GetWeatherData(cfg: Config, city: string, api: WeatherApi): (w: WeatherFeatures)
    ensures w.tempDiff >= 0.0
    ensures w.snow in {0, 1} && w.heavyWind in {0, 1}
  {
    if cfg.simulate then WeatherFeatures(2.0, 0.0, 0, 0)
    else match api(city)
      case WHttpError => DefaultWeather()
      case WRequestError => DefaultWeather()
      case WPayload(cur) =>
        FeaturesOf(if cur.Some? then cur.value else Current(Absent, Absent, Absent, NoDescriptions))
  }

  /** Weather is best-effort: any HTTP error or transport failure is the
      default, and so is any value that makes the parsing raise. */
  lemma WeatherFailuresAreDefault(cfg: Config, city: string, api: WeatherApi)
    requires !cfg.simulate
    ensures api(city).WHttpError? || api(city).WRequestError? ==> GetWeatherData(cfg, city, api) == DefaultWeather()
    ensures api(city).WPayload? && api(city).current.Some? &&
            (api(city).current.value.temperature.NonNumeric? ||
             api(city).current.value.precip.NonNumeric? ||
             api(city).current.value.windSpeed.NonNumeric?)
            ==> GetWeatherData(cfg, city, api) == DefaultWeather()
  {
  }

  /** A well-formed `current` object gives: SNOW = 1 iff "snow" occurs in
      the joined lowercase descriptions; HEAVY_WIND = 1 iff the wind speed
      is above 25 (missing counting as 0); TEMP_DIFF = |temperature - 20|
      with a missing or zero temperature counting as 20; PRECIP the amount. */
  lemma WeatherOfCurrent(cfg: Config, city: string, api: WeatherApi, c: Current)
    requires !cfg.simulate && api(city) == WPayload(Some(c))
    requires !c.temperature.NonNumeric? && !c.precip.NonNumeric? && !c.windSpeed.NonNumeric?
    requires DescriptionText(c.descriptions).Some?
    ensures var w := GetWeatherData(cfg, city, api);
      && (w.snow == 1 <==> Contains(DescriptionText(c.descriptions).value, "snow"))
      && (w.heavyWind == 1 <==> c.windSpeed.Num? && c.windSpeed.x > 25.0)
      && w.tempDiff == (if c.temperature.Num? && c.temperature.x != 0.0 then Abs(c.temperature.x - 20.0) else 0.0)
      && w.precip == (if c.precip.Num? then c.precip.x else 0.0)
  {
  }

  /** A list description reads as the items lowercased and joined by
      spaces, so "snow" occurs in it exactly when it occurs in one of the
      lowercased items. */
  lemma SnowInList(items: seq<string>)
    ensures DescriptionText(DescList(seq(|items|, i requires 0 <= i < |items| => Some(items[i]))))
         == Some(JoinSpace(seq(|items|, i requires 0 <= i < |items| => Lower(items[i]))))
    ensures Contains(JoinSpace(seq(|items|, i requires 0 <= i < |items| => Lower(items[i]))), "snow")
         <==> exists i :: 0 <= i < |items| && Contains(Lower(items[i]), "snow")
  {
    var wrapped := seq(|items|, i requires 0 <= i < |items| => Some(items[i]));
    var lowered := seq(|items|, i requires 0 <= i < |items| => Lower(items[i]));
    assert AllSome(wrapped);
    assert LowerAll(wrapped) == lowered;
    assert ' ' !in "snow";
    JoinSpaceContains(lowered, "snow");
    if i :| 0 <= i < |lowered| && Contains(lowered[i], "snow") {
      assert Contains(Lower(items[i]), "snow");
    }
    if i :| 0 <= i < |items| && Contains(Lower(items[i]), "snow") {
      assert Contains(lowered[i], "snow");
    }
  }

  // ---------------------------------------------------------------------
  // Row assembly

  type FeatureRow = map<string, Value>

  const NOT_FOUND_MESSAGE: string := "Flight not found or failed to retrieve flight data."
  const DATE_ERROR_MESSAGE: string := "time data does not match format '%Y-%m-%d'"

  /** The keys of the row _build_feature_row returns. */
  const ROW_KEYS: set<string> := {
    "AIRLINE_CODE", "ORIGIN_CODE", "DEST_CODE", "DEP_HOUR", "FL_DATE", "DAY_OF_WEEK", "MONTH",
    "IS_MORNING", "IS_AFTERNOON", "IS_EVENING", "IS_NIGHT",
    "ORIGIN_PRECIP", "DEST_PRECIP", "ORIGIN_SNOW", "DEST_SNOW",
    "ORIGIN_HEAVY_WIND", "DEST_HEAVY_WIND", "TEMP_DIFF" }

  datatype DayParts = DayParts(morning: int, afternoon: int, evening: int, night: int)

  /** The four day-part flags; they partition the integers. */
  function DayPartsOf(h: int): (p: DayParts)
    ensures p.morning + p.afternoon + p.evening + p.night == 1
    ensures p.morning in {0, 1} && p.afternoon in {0, 1} && p.evening in {0, 1} && p.night in {0, 1}
    ensures p.morning == 1 <==> 5 <= h < 12
    ensures p.afternoon == 1 <==> 12 <= h < 17
    ensures p.evening == 1 <==> 17 <= h < 21
    ensures p.night == 1 <==> h >= 21 || h < 5
  {
    DayParts(B2I(5 <= h < 12), B2I(12 <= h < 17), B2I(17 <= h < 21), B2I(h >= 21 || h < 5))
  }

  /** `{**flight, ...}` with the day parts and the weather of both ends. */
  function RowOf(f: FlightInfo, wo: WeatherFeatures, wd: WeatherFeatures): (row: FeatureRow)
    ensures "FL_DATE" in row && row["FL_DATE"] == VStr(f.flDate)
  {
    var p := DayPartsOf(f.depHour);
    map[
      "AIRLINE_CODE" := VStr(f.airline), "ORIGIN_CODE" := VStr(f.origin), "DEST_CODE" := VStr(f.dest),
      "DEP_HOUR" := VInt(f.depHour), "FL_DATE" := VStr(f.flDate),
      "DAY_OF_WEEK" := VInt(f.dayOfWeek), "MONTH" := VInt(f.month),
      "IS_MORNING" := VInt(p.morning), "IS_AFTERNOON" := VInt(p.afternoon),
      "IS_EVENING" := VInt(p.evening), "IS_NIGHT" := VInt(p.night),
      "ORIGIN_PRECIP" := VReal(wo.precip), "DEST_PRECIP" := VReal(wd.precip),
      "ORIGIN_SNOW" := VInt(wo.snow), "DEST_SNOW" := VInt(wd.snow),
      "ORIGIN_HEAVY_WIND" := VInt(wo.heavyWind), "DEST_HEAVY_WIND" := VInt(wd.heavyWind),
      "TEMP_DIFF" := VReal(Abs(wo.tempDiff - wd.tempDiff))]
  }

  /** _build_feature_row: the row, the "not found" error, or the exception
      the flight lookup raised. */
  datatype Assembled = Row(row: FeatureRow) | FlightMissing(message: string) | Raised(message: string)

  function BuildFeatureRow(cfg: Config, flightNumber: string, flightDate: string,
                           flightApi: FlightApi, weatherApi: WeatherApi): (a: Assembled)
    ensures a.Row? <==> FlightDetails(cfg, flightNumber, flightDate, flightApi).Found?
    ensures a.FlightMissing? <==> FlightDetails(cfg, flightNumber, flightDate, flightApi) == NotFound
    ensures a.Raised? <==> FlightDetails(cfg, flightNumber, flightDate, flightApi) == DateError
    ensures a.FlightMissing? ==> a.message == NOT_FOUND_MESSAGE
  {
    match FlightDetails(cfg, flightNumber, flightDate, flightApi)
    case NotFound => FlightMissing(NOT_FOUND_MESSAGE)
    case DateError => Raised(DATE_ERROR_MESSAGE)
    case Found(f) =>
      // get_weather_data always returns a non-empty dict, so `or default_weather()` never fires.
      Row(RowOf(f, GetWeatherData(cfg, f.origin, weatherApi), GetWeatherData(cfg, f.dest, weatherApi)))
  }

  /** What a row holds: exactly the eighteen keys, the flight fields, one
      day-part flag set, both ends' weather, and a non-negative TEMP_DIFF
      that is the distance between the two ends' deviations from 20. */
  lemma RowOfContents(f: FlightInfo, wo: WeatherFeatures, wd: WeatherFeatures)
    ensures var row := RowOf(f, wo, wd);
      && row.Keys == ROW_KEYS
      && row["AIRLINE_CODE"] == VStr(f.airline) && row["ORIGIN_CODE"] == VStr(f.origin)
      && row["DEST_CODE"] == VStr(f.dest) && row["DEP_HOUR"] == VInt(f.depHour)
      && row["DAY_OF_WEEK"] == VInt(f.dayOfWeek) && row["MONTH"] == VInt(f.month)
      && row["IS_MORNING"].i + row["IS_AFTERNOON"].i + row["IS_EVENING"].i + row["IS_NIGHT"].i == 1
      && row["ORIGIN_PRECIP"] == VReal(wo.precip) && row["DEST_PRECIP"] == VReal(wd.precip)
      && row["ORIGIN_SNOW"] == VInt(wo.snow) && row["DEST_SNOW"] == VInt(wd.snow)
      && row["ORIGIN_HEAVY_WIND"] == VInt(wo.heavyWind) && row["DEST_HEAVY_WIND"] == VInt(wd.heavyWind)
      && row["TEMP_DIFF"] == VReal(Abs(wo.tempDiff - wd.tempDiff))
      && row["TEMP_DIFF"].r >= 0.0
  {
    RowOfKeys(f, wo, wd);
    RowOfCodeCells(f, wo, wd);
    RowOfCalendarCells(f, wo, wd);
    RowOfDayPartCells(f, wo, wd);
    RowOfWeatherCells(f, wo, wd);
  }

  lemma RowOfCodeCells(f: FlightInfo, wo: WeatherFeatures, wd: WeatherFeatures)
    ensures var row := RowOf(f, wo, wd);
      && row["AIRLINE_CODE"] == VStr(f.airline) && row["ORIGIN_CODE"] == VStr(f.origin)
      && row["DEST_CODE"] == VStr(f.dest)
  {
  }

  lemma RowOfCalendarCells(f: FlightInfo, wo: WeatherFeatures, wd: WeatherFeatures)
    ensures var row := RowOf(f, wo, wd);
      && row["DEP_HOUR"] == VInt(f.depHour)
      && row["DAY_OF_WEEK"] == VInt(f.dayOfWeek) && row["MONTH"] == VInt(f.month)
  {
  }

  lemma RowOfDayPartCells(f: FlightInfo, wo: WeatherFeatures, wd: WeatherFeatures)
    ensures var row := RowOf(f, wo, wd);
      row["IS_MORNING"].i + row["IS_AFTERNOON"].i + row["IS_EVENING"].i + row["IS_NIGHT"].i == 1
  {
  }

  lemma RowOfWeatherCells(f: FlightInfo, wo: WeatherFeatures, wd: WeatherFeatures)
    ensures var row := RowOf(f, wo, wd);
      && row["ORIGIN_PRECIP"] == VReal(wo.precip) && row["DEST_PRECIP"] == VReal(wd.precip)
      && row["ORIGIN_SNOW"] == VInt(wo.snow) && row["DEST_SNOW"] == VInt(wd.snow)
      && row["ORIGIN_HEAVY_WIND"] == VInt(wo.heavyWind) && row["DEST_HEAVY_WIND"] == VInt(wd.heavyWind)
      && row["TEMP_DIFF"] == VReal(Abs(wo.tempDiff - wd.tempDiff))
      && row["TEMP_DIFF"].r >= 0.0
  {
  }

  lemma RowOfKeys(f: FlightInfo, wo: WeatherFeatures, wd: WeatherFeatures)
    ensures RowOf(f, wo, wd).Keys == ROW_KEYS
  {
  }

  /** No cell of a built row is `None`. */
  lemma RowOfHasNoNone(f: FlightInfo, wo: WeatherFeatures, wd: WeatherFeatures)
    ensures forall k :: k in RowOf(f, wo, wd) ==> RowOf(f, wo, wd)[k] != VNone
  {
  }

  /** A found flight always yields a row, built from the weather of its own
      origin and of its own destination, each looked up separately. */
  lemma FoundFlightRow(cfg: Config, flightNumber: string, flightDate: string,
                       flightApi: FlightApi, weatherApi: WeatherApi)
    requires FlightDetails(cfg, flightNumber, flightDate, flightApi).Found?
    ensures var f := FlightDetails(cfg, flightNumber, flightDate, flightApi).info;
      BuildFeatureRow(cfg, flightNumber, flightDate, flightApi, weatherApi)
        == Row(RowOf(f, GetWeatherData(cfg, f.origin, weatherApi), GetWeatherData(cfg, f.dest, weatherApi)))
  {
  }

  /** A missing flight gives the "not found" error whatever the weather
      service would have said: no weather lookup takes place. */
  lemma MissingFlightSkipsWeather(cfg: Config, flightNumber: string, flightDate: string,
                                  flightApi: FlightApi, w1: WeatherApi, w2: WeatherApi)
    requires FlightDetails(cfg, flightNumber, flightDate, flightApi) == NotFound
    ensures BuildFeatureRow(cfg, flightNumber, flightDate, flightApi, w1) == FlightMissing(NOT_FOUND_MESSAGE)
    ensures BuildFeatureRow(cfg, flightNumber, flightDate, flightApi, w1)
         == BuildFeatureRow(cfg, flightNumber, flightDate, flightApi, w2)
  {
  }

  // ---------------------------------------------------------------------
  // Prediction

  /** The loaded artifact: the pipeline's positive-class probability, the
      feature order, and the "version" entry when present. */
  datatype Bundle = Bundle(proba: seq<Value> -> real, featureOrder: seq<string>, version: Option<string>)

  function VersionOf(b: Bundle): (v: string)
    ensures b.version.Some? ==> v == b.version.value
    ensures b.version.None? ==> v == "unknown"
  {
    if b.version.Some? then b.version.value else "unknown"
  }

  function Lookup(row: FeatureRow, key: string): Value {
    if key in row then row[key] else VNone
  }

  /** `[{c: row.get(c) for c in cols}]` as a one-row frame with columns `cols`. */
  function ModelInput(cols: seq<string>, row: FeatureRow): (x: seq<Value>)
    ensures |x| == |cols|
    ensures forall i :: 0 <= i < |cols| && cols[i] in row ==> x[i] == row[cols[i]]
    ensures forall i :: 0 <= i < |cols| && cols[i] !in row ==> x[i] == VNone
  {
    if cols == [] then [] else [Lookup(row, cols[0])] + ModelInput(cols[1..], row)
  }

  datatype PredictOutcome =
    | Prediction(delayedProbability: real, delayedLabel: int, modelVersion: string)
    | ErrorResult(error: string)
    | Failed(message: string)

  /** The part of predict_flight_delay after the bundle is loaded. */
  function PredictWith(b: Bundle, a: Assembled): (r: PredictOutcome)
    ensures r.Prediction? <==> a.Row?
    ensures r.Prediction? ==> r.delayedLabel in {0, 1} && (r.delayedLabel == 1 <==> r.delayedProbability >= 0.5)
    ensures r.ErrorResult? <==> a.FlightMissing?
    ensures !a.Row? ==> (r.ErrorResult? && r.error == a.message) || (r.Failed? && r.message == a.message)
  {
    match a
    case FlightMissing(m) => ErrorResult(m)
    case Raised(m) => Failed(m)
    case Row(row) =>
      var p := b.proba(ModelInput(b.featureOrder, row));
      Prediction(p, B2I(p >= 0.5), VersionOf(b))
  }

  /** A successful prediction scores exactly the feature-order columns, labels
      1 exactly at probability 0.5 or more, and carries the bundle's version. */
  lemma PredictionDecision(b: Bundle, a: Assembled)
    requires a.Row?
    ensures var r := PredictWith(b, a);
      && r.Prediction?
      && r.delayedProbability == b.proba(ModelInput(b.featureOrder, a.row))
      && (r.delayedLabel == 1 <==> r.delayedProbability >= 0.5)
      && (r.delayedLabel == 0 <==> r.delayedProbability < 0.5)
      && r.modelVersion == VersionOf(b)
  {
  }

  /** An assembly error is returned as `{"error": ...}` and the pipeline is
      never consulted: the result is the same for any pipeline. */
  lemma ErrorSkipsModel(b: Bundle, a: Assembled, other: seq<Value> -> real)
    requires a.FlightMissing?
    ensures PredictWith(b, a) == ErrorResult(a.message)
    ensures PredictWith(b, a) == PredictWith(b.(proba := other), a)
  {
  }

  const LOAD_ERROR_MESSAGE: string := "model artifact could not be loaded"

  /** The process-wide `_bundle` cache: empty until the first successful
      load, then fixed for the life of the process. `loads` counts the
      loads that took effect. */
  class BundleCache {
    var bundle: Option<Bundle>
    ghost var loads: nat

    ghost predicate Valid()
      reads this
    {
      loads == if bundle.Some? then 1 else 0
    }

    constructor ()
      ensures Valid() && bundle == None && loads == 0
    {
      bundle := None;
      loads := 0;
    }

    /** _get_bundle. `loaded` is what `joblib.load` would give, None where it raises. */
    method GetBundle(loaded: Option<Bundle>) returns (b: Option<Bundle>)
      requires Valid()
      modifies this
      ensures Valid() && loads <= 1
      ensures old(bundle).Some? ==> bundle == old(bundle) && b == old(bundle) && loads == old(loads)
      ensures old(bundle).None? ==> bundle == loaded && b == loaded
    {
      if bundle.None? {
        bundle := loaded;
        if loaded.Some? {
          loads := loads + 1;
        }
      }
      b := bundle;
    }

    /** predict_flight_delay: load the bundle (once), build the row, and
      either return the error or score the row. */
    method PredictFlightDelay(cfg: Config, flightNumber: string, flightDate: string,
                              flightApi: FlightApi, weatherApi: WeatherApi, loaded: Option<Bundle>)
      returns (r: PredictOutcome)
      requires Valid()
      modifies this
      ensures Valid() && loads <= 1
      ensures old(bundle).Some? ==> bundle == old(bundle)
      ensures old(bundle).None? ==> bundle == loaded
      ensures bundle.None? ==> r == Failed(LOAD_ERROR_MESSAGE)
      ensures bundle.Some? ==> r == PredictWith(bundle.value, BuildFeatureRow(cfg, flightNumber, flightDate, flightApi, weatherApi))
    {
      var b := GetBundle(loaded);
      if b.None? {
        return Failed(LOAD_ERROR_MESSAGE);
      }
      var assembled := BuildFeatureRow(cfg, flightNumber, flightDate, flightApi, weatherApi);
      r := PredictWith(b.value, assembled);
    }
  }
}
