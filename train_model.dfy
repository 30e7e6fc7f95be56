/** The training/serving feature contract (backend/predictor/train_model.py):
    the list of features the live predictor can compute, the loader that
    turns the preprocessed table into the training matrix, and the parts of
    the saved artifact the predictor reads back. Fitting the pipeline is
    not modelled; the artifact carries the feature order and the version. */
module TrainModel {
  import opened Common
  import opened Calendar
  import opened Preprocessing
  import Predictor

  /** The features the model is trained on, in the model's column order. */
  const SERVE_FEATURES: seq<string> := [
    "AIRLINE_CODE", "ORIGIN_CODE", "DEST_CODE",
    "DEP_HOUR", "DAY_OF_WEEK", "MONTH",
    "IS_MORNING", "IS_AFTERNOON", "IS_EVENING", "IS_NIGHT",
    "ORIGIN_PRECIP", "DEST_PRECIP",
    "ORIGIN_SNOW", "DEST_SNOW",
    "ORIGIN_HEAVY_WIND", "DEST_HEAVY_WIND",
    "TEMP_DIFF"]

  /** The one-hot encoded columns. */
  const CATEGORICAL: seq<string> := ["AIRLINE_CODE", "ORIGIN_CODE", "DEST_CODE"]

  const MODEL_VERSION: string := "2025-08-13-xgb-bundle-v1"

  /** The training split keeps flights strictly before this date. */
  const CUTOFF: Date := Date(2022, 1, 1)

  /** The seventeen feature names are pairwise distinct. */
  lemma ServeFeaturesDistinct()
    ensures |SERVE_FEATURES| == 17
    ensures forall i, j :: 0 <= i < j < |SERVE_FEATURES| ==> SERVE_FEATURES[i] != SERVE_FEATURES[j]
  {
    forall i, j | 0 <= i < j < |SERVE_FEATURES|
      ensures SERVE_FEATURES[i] != SERVE_FEATURES[j]
    {
      var a, b := SERVE_FEATURES[i], SERVE_FEATURES[j];
      assert |a| != |b| || a[3] != b[3] || a[|a| - 1] != b[|b| - 1];
    }
  }

  predicate IsCategorical(c: string) {
    c in CATEGORICAL
  }

  /** `[c for c in cols if c not in categorical]`. */
  function Numeric(cols: seq<string>): (r: seq<string>)
    ensures |r| <= |cols|
  {
    if cols == [] then [] else (if IsCategorical(cols[0]) then [] else [cols[0]]) + Numeric(cols[1..])
  }

  /** The numeric group holds exactly the non-categorical columns. */
  lemma {:induction false} NumericMembers(cols: seq<string>)
    ensures forall c :: c in Numeric(cols) <==> c in cols && !IsCategorical(c)
  {
    if cols != [] {
      NumericMembers(cols[1..]);
      assert forall c :: c in cols <==> c == cols[0] || c in cols[1..];
    }
  }

  /** Every training column is in exactly one of the two groups, and the
      categorical columns are all training columns. */
  lemma CategoricalNumericPartition()
    ensures forall c :: c in SERVE_FEATURES ==> (c in CATEGORICAL <==> c !in Numeric(SERVE_FEATURES))
    ensures forall c :: c in CATEGORICAL ==> c in SERVE_FEATURES
  {
    NumericMembers(SERVE_FEATURES);
    assert CATEGORICAL == SERVE_FEATURES[..3];
  }

  /** The numeric group keeps the training order: it is the list after the
      three codes. */
  lemma NumericKeepsOrder()
    ensures Numeric(SERVE_FEATURES) == SERVE_FEATURES[3..]
  {
    NoCodeAfterThird();
    assert IsCategorical(SERVE_FEATURES[0]) && IsCategorical(SERVE_FEATURES[1]) && IsCategorical(SERVE_FEATURES[2]);
    NumericDropsPrefix(SERVE_FEATURES, 3);
  }

  /** Categorical columns leading the list are dropped, the rest is kept. */
  lemma {:induction false} NumericDropsPrefix(cols: seq<string>, n: nat)
    requires n <= |cols|
    requires forall i :: 0 <= i < n ==> IsCategorical(cols[i])
    requires forall c :: c in cols[n..] ==> !IsCategorical(c)
    ensures Numeric(cols) == cols[n..]
  {
    if n == 0 {
      NumericOfNonCategorical(cols);
    } else {
      assert cols[1..][n - 1..] == cols[n..];
      NumericDropsPrefix(cols[1..], n - 1);
    }
  }

  lemma NoCodeAfterThird()
    ensures forall c :: c in SERVE_FEATURES[3..] ==> !IsCategorical(c)
  {
    ServeFeaturesDistinct();
    var head := SERVE_FEATURES[..3];
    assert CATEGORICAL == head;
    forall c | c in SERVE_FEATURES[3..]
      ensures c !in head
    {
      var i :| 3 <= i < |SERVE_FEATURES| && SERVE_FEATURES[i] == c;
      forall j | 0 <= j < 3
        ensures head[j] != c
      {
        assert head[j] == SERVE_FEATURES[j];
      }
    }
  }

  lemma {:induction false} NumericOfNonCategorical(cols: seq<string>)
    requires forall c :: c in cols ==> !IsCategorical(c)
    ensures Numeric(cols) == cols
  {
    if cols != [] {
      assert forall c :: c in cols[1..] ==> c in cols;
      NumericOfNonCategorical(cols[1..]);
      assert cols == [cols[0]] + cols[1..];
    }
  }

  // ---------------------------------------------------------------------
  // `load_training_data`
  // ---------------------------------------------------------------------

  /** `df["FL_DATE"] < "2022-01-01"`: the timestamp comparison, which on
      dates is the lexicographic order of (year, month, day). */
  predicate Before(d: Date, c: Date) {
    d.year < c.year || (d.year == c.year && (d.month < c.month || (d.month == c.month && d.day < c.day)))
  }

  /** On representable dates the comparison is the order of `toordinal()`:
      one date is before another exactly when it is fewer days from
      0001-01-01. */
  lemma BeforeIsOrdinalOrder(d: Date, c: Date)
    requires ValidDate(d) && ValidDate(c)
    ensures Before(d, c) <==> Ordinal(d) < Ordinal(c)
  {
    OrdinalOrder(d, c);
  }

  /** `df[df["FL_DATE"] < "2022-01-01"]`: the rows before the cutoff, in table order. */
  function TrainRows(table: seq<Features>): (r: seq<Features>)
    ensures |r| <= |table|
    ensures forall x :: x in r <==> x in table && Before(x.flight.flDate, CUTOFF)
  {
    if table == [] then []
    else
      var last := table[|table| - 1];
      var rest := TrainRows(table[..|table| - 1]);
      assert forall x :: x in table <==> x == last || x in table[..|table| - 1];
      rest + (if Before(last.flight.flDate, CUTOFF) then [last] else [])
  }

  /** One more row extends the filter by that row when it is before the cutoff. */
  lemma TrainRowsStep(table: seq<Features>, i: nat)
    requires i < |table|
    ensures TrainRows(table[..i + 1]) == TrainRows(table[..i]) + (if Before(table[i].flight.flDate, CUTOFF) then [table[i]] else [])
  {
    assert table[..i + 1][..i] == table[..i];
  }

  /** The filter distributes over concatenation, so it keeps the table's
      order. */
  lemma {:induction false} TrainRowsAppend(a: seq<Features>, b: seq<Features>)
    ensures TrainRows(a + b) == TrainRows(a) + TrainRows(b)
  {
    if b == [] {
      assert a + b == a;
    } else {
      var b' := b[..|b| - 1];
      assert (a + b)[..|a + b| - 1] == a + b';
      assert (a + b)[|a + b| - 1] == b[|b| - 1];
      TrainRowsAppend(a, b');
      var last := b[|b| - 1];
      var tail := if Before(last.flight.flDate, CUTOFF) then [last] else [];
      assert TrainRows(a + b) == TrainRows(a + b') + tail;
      assert TrainRows(b) == TrainRows(b') + tail;
    }
  }

  /** `df["AIRLINE_CODE"] = df["AIRLINE"]` and the same for ORIGIN and DEST
      (in `load_training_data`) on one row: the codes become the IATA
      strings and no other column changes. */
  function StringCodes(r: Features): (s: Features)
    ensures s.codes == CodeCols(VStr(r.flight.airline), VStr(r.flight.origin), VStr(r.flight.dest))
    ensures s.flight == r.flight && s.arrDelayed == r.arrDelayed
    ensures s.originObs == r.originObs && s.destObs == r.destObs
    ensures s.calendar == r.calendar && s.traffic == r.traffic && s.route == r.route
    ensures s.dayPart == r.dayPart && s.weatherFlags == r.weatherFlags && s.holidayFlag == r.holidayFlag
  {
    r.(codes := CodeCols(VStr(r.flight.airline), VStr(r.flight.origin), VStr(r.flight.dest)))
  }

  /** The same three assignments on the whole table, in place. */
  method OverwriteCodes(t: array<Features>)
    modifies t
    ensures forall k :: 0 <= k < t.Length ==> t[k] == StringCodes(old(t[k]))
  {
    var i := 0;
    while i < t.Length
      invariant 0 <= i <= t.Length
      invariant forall k :: 0 <= k < i ==> t[k] == StringCodes(old(t[k]))
      invariant forall k :: i <= k < t.Length ==> t[k] == old(t[k])
    {
      t[i] := StringCodes(t[i]);
      i := i + 1;
    }
  }

  /** TEMP_DIFF as a cell: NaN when either side's temperature is missing. */
  function OptionalReal(x: Option<real>): (v: Value)
    ensures x.Some? ==> v == VReal(x.value)
    ensures x.None? ==> v == VNone
  {
    if x.Some? then VReal(x.value) else VNone
  }

  /** The value of the named training column in a row: a code cell for the
      categorical columns, TEMP_DIFF's optional real, an integer otherwise. */
  function Column(r: Features, name: string): (v: Value)
    requires name in SERVE_FEATURES
    ensures name in CATEGORICAL ==> v == r.codes.airlineCode || v == r.codes.originCode || v == r.codes.destCode
    ensures name == "TEMP_DIFF" ==> v == OptionalReal(r.weatherFlags.tempDiff)
    ensures name !in CATEGORICAL && name != "TEMP_DIFF" ==> v.VInt?
  {
    if name == "AIRLINE_CODE" then r.codes.airlineCode
    else if name == "ORIGIN_CODE" then r.codes.originCode
    else if name == "DEST_CODE" then r.codes.destCode
    else if name == "DEP_HOUR" then VInt(r.calendar.depHour)
    else if name == "DAY_OF_WEEK" then VInt(r.calendar.dayOfWeek)
    else if name == "MONTH" then VInt(r.calendar.month)
    else if name == "IS_MORNING" then VInt(r.dayPart.isMorning)
    else if name == "IS_AFTERNOON" then VInt(r.dayPart.isAfternoon)
    else if name == "IS_EVENING" then VInt(r.dayPart.isEvening)
    else if name == "IS_NIGHT" then VInt(r.dayPart.isNight)
    else if name == "ORIGIN_PRECIP" then VInt(r.weatherFlags.originPrecip)
    else if name == "DEST_PRECIP" then VInt(r.weatherFlags.destPrecip)
    else if name == "ORIGIN_SNOW" then VInt(r.weatherFlags.originSnow)
    else if name == "DEST_SNOW" then VInt(r.weatherFlags.destSnow)
    else if name == "ORIGIN_HEAVY_WIND" then VInt(r.weatherFlags.originHeavyWind)
    else if name == "DEST_HEAVY_WIND" then VInt(r.weatherFlags.destHeavyWind)
    else OptionalReal(r.weatherFlags.tempDiff)
  }

  /** `train[SERVE_FEATURES]` on one row. */
  function FeatureVector(r: Features): (x: seq<Value>)
    ensures |x| == |SERVE_FEATURES|
    ensures forall i :: 0 <= i < |SERVE_FEATURES| ==> x[i] == Column(r, SERVE_FEATURES[i])
  {
    seq(|SERVE_FEATURES|, i requires 0 <= i < |SERVE_FEATURES| => Column(r, SERVE_FEATURES[i]))
  }

  /** A frame: column names and rows of cells. */
  datatype Frame = Frame(columns: seq<string>, rows: seq<seq<Value>>)

  /** The feature rows of a table, with string codes, in table order. */
  function Matrix(rs: seq<Features>): (x: seq<seq<Value>>)
    ensures |x| == |rs|
    ensures forall m :: 0 <= m < |rs| ==> x[m] == FeatureVector(StringCodes(rs[m]))
  {
    if rs == [] then [] else Matrix(rs[..|rs| - 1]) + [FeatureVector(StringCodes(rs[|rs| - 1]))]
  }

  /** The ARR_DELAYED column of a table, in table order. */
  function Labels(rs: seq<Features>): (y: seq<int>)
    ensures |y| == |rs|
    ensures forall m :: 0 <= m < |rs| ==> y[m] == rs[m].arrDelayed
  {
    if rs == [] then [] else Labels(rs[..|rs| - 1]) + [rs[|rs| - 1].arrDelayed]
  }

  /** Appending one row appends its feature row and its label. */
  lemma MatrixLabelsSnoc(rs: seq<Features>, r: Features)
    ensures Matrix(rs + [r]) == Matrix(rs) + [FeatureVector(StringCodes(r))]
    ensures Labels(rs + [r]) == Labels(rs) + [r.arrDelayed]
  {
    assert (rs + [r])[..|rs|] == rs;
  }

  /** `load_training_data`, given the table `preprocess_flight_data` returns:
      overwrite the codes, keep the rows before the cutoff, select the
      features and the label. */
  method LoadTrainingData(table: seq<Features>) returns (x: Frame, y: seq<int>)
    ensures x.columns == SERVE_FEATURES
    ensures |x.rows| == |y| == |TrainRows(table)|
    ensures forall m :: 0 <= m < |y| ==>
      x.rows[m] == FeatureVector(StringCodes(TrainRows(table)[m])) && y[m] == TrainRows(table)[m].arrDelayed
  {
    var t := new Features[|table|](k requires 0 <= k < |table| => table[k]);
    OverwriteCodes(t);
    var rows: seq<seq<Value>> := [];
    y := [];
    var i := 0;
    while i < t.Length
      invariant 0 <= i <= t.Length
      invariant forall k :: 0 <= k < t.Length ==> t[k] == StringCodes(table[k])
      invariant rows == Matrix(TrainRows(table[..i])) && y == Labels(TrainRows(table[..i]))
    {
      TrainRowsStep(table, i);
      if Before(t[i].flight.flDate, CUTOFF) {
        MatrixLabelsSnoc(TrainRows(table[..i]), table[i]);
        rows := rows + [FeatureVector(t[i])];
        y := y + [t[i].arrDelayed];
      } else {
        assert TrainRows(table[..i + 1]) == TrainRows(table[..i]);
      }
      i := i + 1;
    }
    assert table[..i] == table;
    x := Frame(SERVE_FEATURES, rows);
  }

  /** The training label is the strict `> 15` delay flag of the row. */
  lemma TrainingLabels(table: seq<Features>, y: seq<int>, m: nat)
    requires LabelColumn(table)
    requires |y| == |TrainRows(table)| && m < |y|
    requires y[m] == TrainRows(table)[m].arrDelayed
    ensures y[m] == 1 <==> TrainRows(table)[m].flight.arrDelay.Some? && TrainRows(table)[m].flight.arrDelay.value > 15.0
  {
    assert TrainRows(table)[m] in table;
  }

  /** In the training matrix the three codes are the IATA strings, the
      weather flags are 0/1, and only TEMP_DIFF can be missing. */
  lemma TrainingVectorShape(r: Features)
    ensures var x := FeatureVector(StringCodes(r));
      && x[0] == VStr(r.flight.airline) && x[1] == VStr(r.flight.origin) && x[2] == VStr(r.flight.dest)
      && (forall i :: 3 <= i < 16 ==> x[i].VInt?)
      && x[16] == OptionalReal(r.weatherFlags.tempDiff)
      && x[10] == VInt(Above(r.originObs[WeatherLoader.PRCP], 0.1))
    requires r.weatherFlags == WeatherFlagsOf(r.originObs, r.destObs)
  {
    var x := FeatureVector(StringCodes(r));
    forall i | 3 <= i < 16
      ensures x[i].VInt?
    {
      ColumnIsInt(StringCodes(r), i);
    }
    assert SERVE_FEATURES[10] == "ORIGIN_PRECIP";
  }

  /** The calendar, day-part and weather-flag columns are integers. */
  lemma ColumnIsInt(r: Features, i: int)
    requires 3 <= i < 16
    ensures Column(r, SERVE_FEATURES[i]).VInt?
  {
    ServeFeaturesDistinct();
    var name := SERVE_FEATURES[i];
    assert name != "AIRLINE_CODE" && name != "ORIGIN_CODE" && name != "DEST_CODE" && name != "TEMP_DIFF" by {
      assert SERVE_FEATURES[0] == "AIRLINE_CODE" && SERVE_FEATURES[1] == "ORIGIN_CODE";
      assert SERVE_FEATURES[2] == "DEST_CODE" && SERVE_FEATURES[16] == "TEMP_DIFF";
    }
  }

  // ---------------------------------------------------------------------
  // `train_and_save_model`, without the fit
  // ---------------------------------------------------------------------

  /** The parts of the saved artifact the predictor reads. */
  datatype Artifact = Artifact(featureOrder: seq<string>, version: string)

  /** `train_and_save_model` up to the dump: the column groups given to the
      transformer and the artifact's feature order and version. */
  method TrainAndSaveModel(table: seq<Features>) returns (categorical: seq<string>, numeric: seq<string>, artifact: Artifact)
    ensures artifact.featureOrder == SERVE_FEATURES
    ensures artifact.version == MODEL_VERSION
    ensures categorical == CATEGORICAL && numeric == SERVE_FEATURES[3..]
    ensures forall c :: c in artifact.featureOrder ==> (c in categorical <==> c !in numeric)
  {
    var x, y := LoadTrainingData(table);
    categorical := CATEGORICAL;
    numeric := Numeric(x.columns);
    CategoricalNumericPartition();
    NumericKeepsOrder();
    artifact := Artifact(x.columns, MODEL_VERSION);
  }

  /** The bundle the predictor loads from an artifact; `proba` stands for
      the fitted pipeline. */
  function BundleOf(a: Artifact, proba: seq<Value> -> real): (b: Predictor.Bundle)
    ensures b.featureOrder == a.featureOrder
    ensures Predictor.VersionOf(b) == a.version
  {
    Predictor.Bundle(proba, a.featureOrder, Some(a.version))
  }

  // ---------------------------------------------------------------------
  // Against the serving side
  // ---------------------------------------------------------------------

  /** Every training feature is a key of the row the predictor builds. */
  lemma ServeFeaturesInRow(f: Predictor.FlightInfo, wo: Predictor.WeatherFeatures, wd: Predictor.WeatherFeatures)
    ensures forall i :: 0 <= i < |SERVE_FEATURES| ==> SERVE_FEATURES[i] in Predictor.RowOf(f, wo, wd)
  {
    Predictor.RowOfKeys(f, wo, wd);
  }

  /** So the live model input for a trained bundle takes every feature from
      the row and never holds a `None` from a missing key; its categorical
      cells are strings, as in training. */
  lemma ServingInputComplete(a: Artifact, proba: seq<Value> -> real,
                             f: Predictor.FlightInfo, wo: Predictor.WeatherFeatures, wd: Predictor.WeatherFeatures)
    requires a.featureOrder == SERVE_FEATURES
    ensures var row := Predictor.RowOf(f, wo, wd);
      var x := Predictor.ModelInput(BundleOf(a, proba).featureOrder, row);
      && |x| == |SERVE_FEATURES|
      && (forall i :: 0 <= i < |x| ==> x[i] == row[SERVE_FEATURES[i]] && x[i] != VNone)
      && x[0] == VStr(f.airline) && x[1] == VStr(f.origin) && x[2] == VStr(f.dest)
  {
    var row := Predictor.RowOf(f, wo, wd);
    ServeFeaturesInRow(f, wo, wd);
    Predictor.RowOfHasNoNone(f, wo, wd);
    InputFromCompleteRow(SERVE_FEATURES, row);
    Predictor.RowOfCodeCells(f, wo, wd);
  }

  /** A row holding every column, none of them `None`, gives its cells in
      column order. */
  lemma InputFromCompleteRow(cols: seq<string>, row: Predictor.FeatureRow)
    requires forall i :: 0 <= i < |cols| ==> cols[i] in row
    requires forall k :: k in row ==> row[k] != VNone
    ensures var x := Predictor.ModelInput(cols, row);
      forall i :: 0 <= i < |x| ==> x[i] == row[cols[i]] && x[i] != VNone
  {
  }

  /** The precipitation columns are encoded differently on the two sides:
      training passes the 0/1 flag of `prcp > 0.1`, serving passes the raw
      amount. */
  lemma PrecipEncodingDiffers(r: Features, f: Predictor.FlightInfo, wo: Predictor.WeatherFeatures, wd: Predictor.WeatherFeatures)
    requires r.weatherFlags == WeatherFlagsOf(r.originObs, r.destObs)
    ensures FeatureVector(StringCodes(r))[10].VInt?
    ensures FeatureVector(StringCodes(r))[10].i == 0 || FeatureVector(StringCodes(r))[10].i == 1
    ensures Predictor.ModelInput(SERVE_FEATURES, Predictor.RowOf(f, wo, wd))[10] == VReal(wo.precip)
  {
    assert SERVE_FEATURES[10] == "ORIGIN_PRECIP";
    Predictor.RowOfWeatherCells(f, wo, wd);
  }
}
