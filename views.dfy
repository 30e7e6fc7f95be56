/** The request view (predictor_api_app/views.py): a chain of early
    returns over the request body, and then the mapping of the predictor's
    result to an HTTP status. JSON decoding is a parameter (`parse`, None
    where `json.loads` raises JSONDecodeError), and so is the predictor
    (`predict`), which receives the two fields as the view read them. */
module Views {
  import opened Common
  import opened Calendar
  import Predictor

  /** A value `json.loads` can return. */
  datatype Json =
    | JNull
    | JBool(b: bool)
    | JNum(x: real)
    | JStr(s: string)
    | JArr(items: seq<Json>)
    | JObj(fields: map<string, Json>)

  /** Python truthiness of a decoded value. */
  predicate Truthy(j: Json) {
    match j
    case JNull => false
    case JBool(b) => b
    case JNum(x) => x != 0.0
    case JStr(s) => s != ""
    case JArr(items) => items != []
    case JObj(fields) => fields != map[]
  }

  /** `dict.get(key)`: the value, or None. */
  function Get(fields: map<string, Json>, key: string): (j: Json)
    ensures key !in fields ==> j == JNull
    ensures key in fields ==> j == fields[key]
  {
    if key in fields then fields[key] else JNull
  }

  /** The request body: text, or bytes that are not UTF-8. */
  datatype Body = Utf8(text: string) | NotUtf8

  /** What the view answers: a JSON response with a status, or an exception
      that escapes the view (Django then answers 500 on its own). */
  datatype Response = JsonResponse(status: int, payload: Json) | Unhandled

  function ErrorPayload(message: string): Json {
    JObj(map["error" := JStr(message)])
  }

  const INVALID_JSON: string := "Invalid JSON body"
  const MISSING_FIELDS: string := "Missing flight_number or flight_date"
  const BAD_DATE: string := "flight_date must be YYYY-MM-DD"
  const FAILED_PREFIX: string := "Prediction failed: "

  /** The outcome of `predict_view`'s checks before the predictor call: an early response, or the
      two fields to hand to the predictor. */
  datatype Validation = Rejected(response: Response) | Accepted(flightNumber: Json, flightDate: string)

  /** `body.decode("utf-8") or "{}"`. */
  function BodyText(text: string): (t: string)
    ensures text == "" ==> t == "{}"
    ensures text != "" ==> t == text
  {
    if text == "" then "{}" else text
  }

  /** The body decoding and the field and date checks of `predict_view`. */
  function Validate(body: Body, parse: string -> Option<Json>): (v: Validation)
    ensures v.Accepted? ==> ParseDate(v.flightDate).Some? && Truthy(v.flightNumber)
    ensures v.Accepted? ==>
      && body.Utf8?
      && parse(BodyText(body.text)).Some? && parse(BodyText(body.text)).value.JObj?
      && v.flightNumber == Get(parse(BodyText(body.text)).value.fields, "flight_number")
      && JStr(v.flightDate) == Get(parse(BodyText(body.text)).value.fields, "flight_date")
    ensures v.Rejected? && v.response.JsonResponse? ==> v.response.status == 400
  {
    match body
    case NotUtf8 => Rejected(Unhandled)
    case Utf8(text) =>
      var data := parse(BodyText(text));
      if data.None? then Rejected(JsonResponse(400, ErrorPayload(INVALID_JSON)))
      else if !data.value.JObj? then Rejected(Unhandled)
      else
        var flightNumber := Get(data.value.fields, "flight_number");
        var flightDate := Get(data.value.fields, "flight_date");
        if !Truthy(flightNumber) || !Truthy(flightDate) then Rejected(JsonResponse(400, ErrorPayload(MISSING_FIELDS)))
        else if !flightDate.JStr? then Rejected(Unhandled)
        else if ParseDate(flightDate.s).None? then Rejected(JsonResponse(400, ErrorPayload(BAD_DATE)))
        else Accepted(flightNumber, flightDate.s)
  }

  /** The predictor's returned dict. */
  function ResultPayload(r: Predictor.PredictOutcome): (j: Json)
    requires !r.Failed?
    ensures j.JObj?
    ensures "error" in j.fields <==> r.ErrorResult?
  {
    assert "error" != "delayed_probability" && "error" != "delayed_label" && "error" != "model_version";
    match r
    case Prediction(p, l, v) =>
      JObj(map["delayed_probability" := JNum(p), "delayed_label" := JNum(l as real), "model_version" := JStr(v)])
    case ErrorResult(e) => ErrorPayload(e)
  }

  /** The last step of `predict_view`: the result as-is, 400 when it has an "error" key, 200
      otherwise; an exception from the predictor gives 500. */
  function Respond(r: Predictor.PredictOutcome): (resp: Response)
    ensures resp.JsonResponse? && resp.status in {200, 400, 500}
    ensures resp.status == 500 <==> r.Failed?
  {
    if r.Failed? then JsonResponse(500, ErrorPayload(FAILED_PREFIX + r.message))
    else
      var payload := ResultPayload(r);
      JsonResponse(if "error" in payload.fields then 400 else 200, payload)
  }

  /** `predict_view`. */
  function PredictView(body: Body, parse: string -> Option<Json>, predict: (Json, string) -> Predictor.PredictOutcome): (resp: Response)
    ensures resp.JsonResponse? ==> resp.status in {200, 400, 500}
    ensures resp.Unhandled? <==> Validate(body, parse) == Rejected(Unhandled)
    ensures resp.JsonResponse? && resp.status != 400 ==> Validate(body, parse).Accepted?
    ensures resp.JsonResponse? && resp.status == 500 ==>
      predict(Validate(body, parse).flightNumber, Validate(body, parse).flightDate).Failed?
  {
    match Validate(body, parse)
    case Rejected(response) => response
    case Accepted(flightNumber, flightDate) => Respond(predict(flightNumber, flightDate))
  }

  // ---------------------------------------------------------------------
  // The ladder's rungs
  // ---------------------------------------------------------------------

  /** An empty body is read as `{}`, which lacks both fields. */
  lemma EmptyBodyIsEmptyObject(parse: string -> Option<Json>, predict: (Json, string) -> Predictor.PredictOutcome)
    ensures PredictView(Utf8(""), parse, predict) == PredictView(Utf8("{}"), parse, predict)
    ensures parse("{}") == Some(JObj(map[])) ==>
      PredictView(Utf8(""), parse, predict) == JsonResponse(400, ErrorPayload(MISSING_FIELDS))
  {
  }

  /** A body `json.loads` rejects gives 400 "Invalid JSON body". */
  lemma InvalidJsonRejected(text: string, parse: string -> Option<Json>, predict: (Json, string) -> Predictor.PredictOutcome)
    requires parse(BodyText(text)).None?
    ensures PredictView(Utf8(text), parse, predict) == JsonResponse(400, ErrorPayload(INVALID_JSON))
  {
  }

  /** A missing or falsy field gives 400, whatever the other field is. */
  lemma MissingFieldRejected(text: string, parse: string -> Option<Json>, predict: (Json, string) -> Predictor.PredictOutcome)
    requires parse(BodyText(text)).Some? && parse(BodyText(text)).value.JObj?
    requires var fields := parse(BodyText(text)).value.fields;
      !Truthy(Get(fields, "flight_number")) || !Truthy(Get(fields, "flight_date"))
    ensures PredictView(Utf8(text), parse, predict) == JsonResponse(400, ErrorPayload(MISSING_FIELDS))
  {
  }

  /** With both fields present and the date a string, a date `%Y-%m-%d`
      rejects gives 400, and one it accepts goes to the predictor with both
      fields as the body gave them; other keys of the object play no part. */
  lemma BadDateRejected(text: string, parse: string -> Option<Json>, predict: (Json, string) -> Predictor.PredictOutcome,
                        fields: map<string, Json>, date: string)
    requires parse(BodyText(text)) == Some(JObj(fields))
    requires Truthy(Get(fields, "flight_number")) && Get(fields, "flight_date") == JStr(date) && date != ""
    ensures ParseDate(date).None? ==> PredictView(Utf8(text), parse, predict) == JsonResponse(400, ErrorPayload(BAD_DATE))
    ensures ParseDate(date).Some? ==> Validate(Utf8(text), parse) == Accepted(Get(fields, "flight_number"), date)
  {
  }

  /** The 30th of February of a common year is refused before the predictor runs. */
  lemma ImpossibleDayRejected(text: string, parse: string -> Option<Json>, predict: (Json, string) -> Predictor.PredictOutcome)
    requires parse(BodyText(text)) == Some(JObj(map["flight_number" := JStr("UA245"), "flight_date" := JStr("2023-02-30")]))
    ensures PredictView(Utf8(text), parse, predict) == JsonResponse(400, ErrorPayload(BAD_DATE))
  {
    var fields := map["flight_number" := JStr("UA245"), "flight_date" := JStr("2023-02-30")];
    assert "flight_number" != "flight_date";
    assert Get(fields, "flight_date") == JStr("2023-02-30");
    LeapDayExamples();
    BadDateRejected(text, parse, predict, fields, "2023-02-30");
  }

  /** A rejected request never reaches the predictor: its response is the
      same whatever the predictor would do. */
  lemma RejectedIgnoresPredictor(body: Body, parse: string -> Option<Json>,
                                 p1: (Json, string) -> Predictor.PredictOutcome, p2: (Json, string) -> Predictor.PredictOutcome)
    requires Validate(body, parse).Rejected?
    ensures PredictView(body, parse, p1) == PredictView(body, parse, p2) == Validate(body, parse).response
  {
  }

  /** An accepted request hands the predictor a date `strptime` accepts, so
      the predictor's own date parsing cannot fail on it. */
  lemma AcceptedDateParses(body: Body, parse: string -> Option<Json>, cfg: Predictor.Config, api: Predictor.FlightApi)
    requires Validate(body, parse).Accepted?
    ensures var v := Validate(body, parse);
      ParseDate(v.flightDate).Some? &&
      (v.flightNumber.JStr? ==> Predictor.FlightDetails(cfg, v.flightNumber.s, v.flightDate, api) != Predictor.DateError)
  {
    var v := Validate(body, parse);
    if v.flightNumber.JStr? {
      Predictor.DateErrorIffInvalid(cfg, v.flightNumber.s, v.flightDate, api);
    }
  }

  /** With a loaded bundle and a string flight number, an accepted request
      never ends in 500: the predictor answers 200 with a prediction, or 400
      exactly when the flight is not found. */
  lemma AcceptedNeverFails(body: Body, parse: string -> Option<Json>, cfg: Predictor.Config, b: Predictor.Bundle,
                           flightApi: Predictor.FlightApi, weatherApi: Predictor.WeatherApi)
    requires Validate(body, parse).Accepted? && Validate(body, parse).flightNumber.JStr?
    ensures var v := Validate(body, parse);
      var lookup := Predictor.FlightDetails(cfg, v.flightNumber.s, v.flightDate, flightApi);
      var response := Respond(Predictor.PredictWith(b, Predictor.BuildFeatureRow(cfg, v.flightNumber.s, v.flightDate, flightApi, weatherApi)));
      && response.JsonResponse?
      && (response.status == 200 <==> lookup.Found?)
      && (response.status == 400 <==> lookup.NotFound?)
      && (lookup.NotFound? ==> response.payload == ErrorPayload(Predictor.NOT_FOUND_MESSAGE))
  {
    var v := Validate(body, parse);
    Predictor.DateErrorIffInvalid(cfg, v.flightNumber.s, v.flightDate, flightApi);
    var r := Predictor.PredictWith(b, Predictor.BuildFeatureRow(cfg, v.flightNumber.s, v.flightDate, flightApi, weatherApi));
    ResultStatus(r);
  }

  /** Status mapping: 200 exactly for a prediction, 400 for the predictor's
      error dict, 500 with the prefix for an exception; the payload is the
      predictor's dict unchanged. */
  lemma ResultStatus(r: Predictor.PredictOutcome)
    ensures Respond(r).JsonResponse?
    ensures Respond(r).status == 200 <==> r.Prediction?
    ensures Respond(r).status == 400 <==> r.ErrorResult?
    ensures r.ErrorResult? ==> Respond(r).payload == ErrorPayload(r.error)
    ensures r.Failed? ==> Respond(r) == JsonResponse(500, ErrorPayload(FAILED_PREFIX + r.message))
    ensures r.Prediction? ==> Respond(r).payload.fields.Keys == {"delayed_probability", "delayed_label", "model_version"}
  {
    if r.Prediction? {
      assert "error" != "delayed_probability" && "error" != "delayed_label" && "error" != "model_version";
    }
  }
}
