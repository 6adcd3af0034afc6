/**
 * The prediction service: request validation by the `PredictionInput` model (a table
 * of per-field `ge`/`le` bounds and types), the `/predict` handler's decisions, and the
 * global model slot that start-up fills.
 *
 * Inference is opaque: the classifier's output for a request is a parameter. Only the
 * classifier's presence and whether it offers `predict_proba` matter to the handler.
 */
module Backend {
  import opened Common
  import Json
  import opened Assessment

  datatype Kind = FloatField | IntField

  /** `Field(..., ge=ge, le=le)` on a field of type `float` or `int`. */
  datatype Constraint = Constraint(field: Field, kind: Kind, ge: real, le: real)

  const PredictionInputFields: seq<Constraint> := [
    Constraint(Age, FloatField, 20.0, 80.0),
    Constraint(Gender, IntField, 1.0, 2.0),
    Constraint(Height, FloatField, 50.0, 250.0),
    Constraint(Weight, FloatField, 10.0, 250.0),
    Constraint(ApHi, FloatField, 50.0, 250.0),
    Constraint(ApLo, FloatField, 30.0, 150.0),
    Constraint(Cholesterol, IntField, 1.0, 3.0),
    Constraint(Gluc, IntField, 1.0, 3.0),
    Constraint(Smoke, IntField, 0.0, 1.0),
    Constraint(Alco, IntField, 0.0, 1.0),
    Constraint(Active, IntField, 0.0, 1.0)
  ]

  /** Why a field was refused; each names the error type the validator reports. */
  datatype ErrorType = Missing | FloatType | IntType | IntFromFloat | GreaterThanEqual(ge: real) | LessThanEqual(le: real)

  /** A `null` body counts as no body at all; any other non-object body is the wrong type. */
  datatype ValidationError = BodyMissing | NotAnObject | FieldError(loc: Field, kind: ErrorType)

  /** The first failing step of one field's validation: presence, type, integrality for
      `int` fields (a number with a fractional part is refused), then `ge`, then `le`. */
  function CheckField(c: Constraint, fields: map<string, Json.Value>): (e: Option<ErrorType>)
    ensures e == Some(Missing) <==> Name(c.field) !in fields
    ensures e.None? <==>
      && Name(c.field) in fields && fields[Name(c.field)].Number?
      && var x := fields[Name(c.field)].n;
         (c.kind == IntField ==> IsInteger(x)) && c.ge <= x <= c.le
  {
    if Name(c.field) !in fields then Some(Missing)
    else match fields[Name(c.field)]
      case Number(x) =>
        if c.kind == IntField && !IsInteger(x) then Some(IntFromFloat)
        else if x < c.ge then Some(GreaterThanEqual(c.ge))
        else if x > c.le then Some(LessThanEqual(c.le))
        else None
      case _ => Some(if c.kind == FloatField then FloatType else IntType)
  }

  /** The fields the errors are attached to. */
  function ErrorFields(errors: seq<ValidationError>): set<Field> {
    if errors == [] then {}
    else (if errors[0].FieldError? then {errors[0].loc} else {}) + ErrorFields(errors[1..])
  }

  /** The fields of cs that validation refuses. */
  function RefusedFields(cs: seq<Constraint>, fields: map<string, Json.Value>): set<Field> {
    if cs == [] then {}
    else (if CheckField(cs[0], fields).Some? then {cs[0].field} else {}) + RefusedFields(cs[1..], fields)
  }

  lemma {:induction false} ErrorFieldsConcat(a: seq<ValidationError>, b: seq<ValidationError>)
    ensures ErrorFields(a + b) == ErrorFields(a) + ErrorFields(b)
  {
    if a == [] {
      assert a + b == b;
    } else {
      assert (a + b)[0] == a[0];
      assert (a + b)[1..] == a[1..] + b;
      ErrorFieldsConcat(a[1..], b);
    }
  }

  /** One error per refused field, in declaration order. */
  function FieldErrors(cs: seq<Constraint>, fields: map<string, Json.Value>): (errors: seq<ValidationError>)
    ensures errors == [] <==> RefusedFields(cs, fields) == {}
    ensures ErrorFields(errors) == RefusedFields(cs, fields)
  {
    if cs == [] then []
    else
      var head := match CheckField(cs[0], fields)
        case Some(kind) => [FieldError(cs[0].field, kind)]
        case None => [];
      var rest := FieldErrors(cs[1..], fields);
      ErrorFieldsConcat(head, rest);
      head + rest
  }

  /** A validated request. */
  datatype PredictionInput = PredictionInput(
    age: real, gender: int, height: real, weight: real, apHi: real, apLo: real,
    cholesterol: int, gluc: int, smoke: int, alco: int, active: int)

  function NumberAt(fields: map<string, Json.Value>, f: Field): real {
    if Name(f) in fields && fields[Name(f)].Number? then fields[Name(f)].n else 0.0
  }

  /** The validated request built from a body without errors (its `int` fields are integral). */
  function Build(fields: map<string, Json.Value>): (p: PredictionInput)
    ensures forall f: Field :: IsInteger(NumberAt(fields, f)) ==> Get(AsRecord(p), f) == NumberAt(fields, f)
    ensures p.age == NumberAt(fields, Age) && p.height == NumberAt(fields, Height)
    ensures p.weight == NumberAt(fields, Weight)
    ensures p.apHi == NumberAt(fields, ApHi) && p.apLo == NumberAt(fields, ApLo)
  {
    PredictionInput(
      NumberAt(fields, Age), NumberAt(fields, Gender).Floor,
      NumberAt(fields, Height), NumberAt(fields, Weight),
      NumberAt(fields, ApHi), NumberAt(fields, ApLo),
      NumberAt(fields, Cholesterol).Floor, NumberAt(fields, Gluc).Floor,
      NumberAt(fields, Smoke).Floor, NumberAt(fields, Alco).Floor, NumberAt(fields, Active).Floor)
  }

  /** Parsing the request body into a `PredictionInput`, or the list of errors (a 422). */
  function Validate(body: Json.Value): (res: Result<PredictionInput, seq<ValidationError>>)
    ensures res.Err? ==> res.error != []
    ensures body.Null? ==> res == Err([BodyMissing])
    ensures !body.Object? && !body.Null? ==> res == Err([NotAnObject])
    ensures body.Object? ==> (res.Ok? <==> RefusedFields(PredictionInputFields, body.fields) == {})
    ensures res.Ok? ==> res.value == Build(body.fields)
  {
    if body.Null? then Err([BodyMissing])
    else if !body.Object? then Err([NotAnObject])
    else
      var fields := body.fields;
      var errors := FieldErrors(PredictionInputFields, fields);
      if errors != [] then Err(errors)
      else Ok(Build(fields))
  }

  // ---------------------------------------------------------------------------
  // What the validator means, stated without the table.

  /** The service's per-field rule: inclusive bounds, and integrality on `int` fields. */
  predicate FieldInRange(f: Field, x: real) {
    match f
    case Age => 20.0 <= x <= 80.0
    case Height => 50.0 <= x <= 250.0
    case Weight => 10.0 <= x <= 250.0
    case ApHi => 50.0 <= x <= 250.0
    case ApLo => 30.0 <= x <= 150.0
    case Gender => IsInteger(x) && 1.0 <= x <= 2.0
    case Cholesterol => IsInteger(x) && 1.0 <= x <= 3.0
    case Gluc => IsInteger(x) && 1.0 <= x <= 3.0
    case Smoke => IsInteger(x) && 0.0 <= x <= 1.0
    case Alco => IsInteger(x) && 0.0 <= x <= 1.0
    case Active => IsInteger(x) && 0.0 <= x <= 1.0
  }

  /** Every record whose encoding the service accepts: per-field bounds only. */
  predicate Accepted(r: Record) {
    && 20.0 <= r.age <= 80.0
    && 50.0 <= r.height <= 250.0
    && 10.0 <= r.weight <= 250.0
    && 50.0 <= r.apHi <= 250.0
    && 30.0 <= r.apLo <= 150.0
    && IsInteger(r.gender) && 1.0 <= r.gender <= 2.0
    && IsInteger(r.cholesterol) && 1.0 <= r.cholesterol <= 3.0
    && IsInteger(r.gluc) && 1.0 <= r.gluc <= 3.0
    && IsInteger(r.smoke) && 0.0 <= r.smoke <= 1.0
    && IsInteger(r.alco) && 0.0 <= r.alco <= 1.0
    && IsInteger(r.active) && 0.0 <= r.active <= 1.0
  }

  lemma {:induction false} RefusedFieldsAt(cs: seq<Constraint>, fields: map<string, Json.Value>, f: Field)
    ensures f in RefusedFields(cs, fields)
        <==> exists k :: 0 <= k < |cs| && cs[k].field == f && CheckField(cs[k], fields).Some?
  {
    if cs != [] {
      RefusedFieldsAt(cs[1..], fields, f);
      if f in RefusedFields(cs[1..], fields) {
        var k :| 0 <= k < |cs[1..]| && cs[1..][k].field == f && CheckField(cs[1..][k], fields).Some?;
        assert cs[k + 1] == cs[1..][k];
      }
      if exists k :: 0 <= k < |cs| && cs[k].field == f && CheckField(cs[k], fields).Some? {
        var k :| 0 <= k < |cs| && cs[k].field == f && CheckField(cs[k], fields).Some?;
        if k > 0 {
          assert cs[1..][k - 1] == cs[k];
        }
      }
    }
  }

  /** For a number in the body, each row of the table passes exactly when the reference rule holds. */
  lemma RowMeansFieldInRange(k: nat, fields: map<string, Json.Value>, x: real)
    requires k < |PredictionInputFields|
    requires Name(PredictionInputFields[k].field) in fields
    requires fields[Name(PredictionInputFields[k].field)] == Json.Number(x)
    ensures CheckField(PredictionInputFields[k], fields).None? <==> FieldInRange(PredictionInputFields[k].field, x)
  {
  }

  function RowIndex(f: Field): (k: nat)
    ensures k < |PredictionInputFields| && PredictionInputFields[k].field == f
  {
    match f
    case Age => 0 case Gender => 1 case Height => 2 case Weight => 3 case ApHi => 4
    case ApLo => 5 case Cholesterol => 6 case Gluc => 7 case Smoke => 8 case Alco => 9
    case Active => 10
  }

  /** For the body the form sends, field f is refused exactly when its value is out of range. */
  lemma EncodedRefusedIff(r: Record, f: Field)
    ensures f in RefusedFields(PredictionInputFields, Encode(r).fields) <==> !FieldInRange(f, Get(r, f))
  {
    var fields := Encode(r).fields;
    RefusedFieldsAt(PredictionInputFields, fields, f);
    if f in RefusedFields(PredictionInputFields, fields) {
      var k :| 0 <= k < |PredictionInputFields| && PredictionInputFields[k].field == f
               && CheckField(PredictionInputFields[k], fields).Some?;
      RowMeansFieldInRange(k, fields, Get(r, f));
    }
    if !FieldInRange(f, Get(r, f)) {
      RowMeansFieldInRange(RowIndex(f), fields, Get(r, f));
    }
  }

  /** Accepted, field by field. */
  lemma AcceptedByField(r: Record)
    ensures Accepted(r) <==> forall f: Field :: FieldInRange(f, Get(r, f))
  {
    if forall f: Field :: FieldInRange(f, Get(r, f)) {
      assert FieldInRange(Age, Get(r, Age)) && FieldInRange(Gender, Get(r, Gender));
      assert FieldInRange(Height, Get(r, Height)) && FieldInRange(Weight, Get(r, Weight));
      assert FieldInRange(ApHi, Get(r, ApHi)) && FieldInRange(ApLo, Get(r, ApLo));
      assert FieldInRange(Cholesterol, Get(r, Cholesterol)) && FieldInRange(Gluc, Get(r, Gluc));
      assert FieldInRange(Smoke, Get(r, Smoke)) && FieldInRange(Alco, Get(r, Alco));
      assert FieldInRange(Active, Get(r, Active));
    }
  }

  /** The validated request read back as a record of numbers. */
  function AsRecord(p: PredictionInput): Record {
    Record(p.age, p.gender as real, p.height, p.weight, p.apHi, p.apLo,
           p.cholesterol as real, p.gluc as real, p.smoke as real, p.alco as real, p.active as real)
  }

  /** What validation builds from the encoding of an accepted record carries its values. */
  lemma EncodedValuesKept(r: Record)
    requires Accepted(r)
    ensures AsRecord(Build(Encode(r).fields)) == r
  {
    var fields := Encode(r).fields;
    assert forall f: Field :: NumberAt(fields, f) == Get(r, f);
    var q := AsRecord(Build(fields));
    assert Get(q, Gender) == r.gender && Get(q, Cholesterol) == r.cholesterol && Get(q, Gluc) == r.gluc;
    assert Get(q, Smoke) == r.smoke && Get(q, Alco) == r.alco && Get(q, Active) == r.active;
  }

  /** The service accepts the encoding of r exactly when Accepted holds; no rule relates two
      fields. What it accepts carries r's values unchanged. */
  lemma ValidateEncodedExactly(r: Record)
    ensures Validate(Encode(r)).Ok? <==> Accepted(r)
    ensures Validate(Encode(r)).Ok? ==> AsRecord(Validate(Encode(r)).value) == r
  {
    AcceptedByField(r);
    var refused := RefusedFields(PredictionInputFields, Encode(r).fields);
    if refused == {} {
      forall f: Field ensures FieldInRange(f, Get(r, f)) {
        EncodedRefusedIff(r, f);
      }
      EncodedValuesKept(r);
    } else {
      var f :| f in refused;
      EncodedRefusedIff(r, f);
    }
  }

  // ---------------------------------------------------------------------------
  // The handler.

  /** A loaded classifier; only whether it offers `predict_proba` matters. */
  datatype Classifier = Classifier(hasPredictProba: bool)

  /** What running the classifier on the request's features gave: an exception with its
      message, or `predict`'s first value and `predict_proba`'s class-1 probability. */
  datatype Inference = Raised(message: string) | Computed(predicted: real, classOneProbability: real)

  datatype PredictionResponse = PredictionResponse(prediction: int, probability: real, riskLabel: string)

  datatype Reply = Success(response: PredictionResponse) | HttpError(status: int, detail: string)

  const HighRisk: string := "High Risk"
  const LowRisk: string := "Low Risk"

  /** Python's `int()` on a float: truncation toward zero. */
  function PyInt(x: real): (n: int)
    ensures 0.0 <= x ==> n as real <= x < n as real + 1.0
    ensures x < 0.0 ==> n as real - 1.0 < x <= n as real
  {
    if x >= 0.0 then x.Floor else -((-x).Floor)
  }

  /** `predict(input_data)`, with the global model slot passed in. */
  function Predict(input: PredictionInput, model: Option<Classifier>, inference: Inference): (reply: Reply)
    ensures model.None? ==> reply == HttpError(500, "Model not loaded")
    ensures model.Some? && inference.Raised? ==> reply == HttpError(500, "Prediction error: " + inference.message)
    ensures reply.Success? <==> model.Some? && inference.Computed?
    ensures reply.HttpError? ==> reply.status == 500
    ensures reply.Success? ==> reply.response.prediction == PyInt(inference.predicted)
    ensures reply.Success? ==>
      reply.response.probability ==
        if model.value.hasPredictProba then inference.classOneProbability else inference.predicted
    ensures reply.Success? ==>
      (reply.response.riskLabel == HighRisk <==> reply.response.prediction == 1)
      && (reply.response.riskLabel == HighRisk || reply.response.riskLabel == LowRisk)
  {
    if model.None? then HttpError(500, "Model not loaded")
    else match inference
      case Raised(message) => HttpError(500, "Prediction error: " + message)
      case Computed(predicted, classOne) =>
        var riskScore := if model.value.hasPredictProba then classOne else predicted;
        var classification := PyInt(predicted);
        Success(PredictionResponse(classification, riskScore,
                                   if classification == 1 then HighRisk else LowRisk))
  }

  // ---------------------------------------------------------------------------
  // The HTTP exchange around the handler.

  datatype HttpResponse = HttpResponse(status: int, body: Json.Value)

  function ErrorTypeName(k: ErrorType): string {
    match k
    case Missing => "missing"
    case FloatType => "float_type"
    case IntType => "int_type"
    case IntFromFloat => "int_from_float"
    case GreaterThanEqual(_) => "greater_than_equal"
    case LessThanEqual(_) => "less_than_equal"
  }

  /** A validation error as the 422 body lists it: its type and its location in the request. */
  function ErrorJson(e: ValidationError): (j: Json.Value)
    ensures j.Object? && "type" in j.fields && "loc" in j.fields
    ensures j.fields["type"].Str? && j.fields["loc"].Array? && |j.fields["loc"].items| >= 1
    ensures j.fields["loc"].items[0] == Json.Str("body")
    ensures j.fields["type"] == Json.Str("missing") <==> e.BodyMissing? || (e.FieldError? && e.kind == Missing)
    ensures e.FieldError? ==> j.fields["loc"].items == [Json.Str("body"), Json.Str(Name(e.loc))]
  {
    match e
    case BodyMissing =>
      Json.Object(map["type" := Json.Str("missing"), "loc" := Json.Array([Json.Str("body")])])
    case NotAnObject =>
      Json.Object(map["type" := Json.Str("model_attributes_type"), "loc" := Json.Array([Json.Str("body")])])
    case FieldError(loc, kind) =>
      Json.Object(map["type" := Json.Str(ErrorTypeName(kind)),
                      "loc" := Json.Array([Json.Str("body"), Json.Str(Name(loc))])])
  }

  function ResponseJson(p: PredictionResponse): (j: Json.Value)
    ensures j.Object? && "prediction" in j.fields && "probability" in j.fields && "risk_label" in j.fields
    ensures j.fields["prediction"] == Json.Number(p.prediction as real)
    ensures j.fields["probability"] == Json.Number(p.probability)
    ensures j.fields["risk_label"] == Json.Str(p.riskLabel)
  {
    Json.Object(map["prediction" := Json.Number(p.prediction as real),
                    "probability" := Json.Number(p.probability),
                    "risk_label" := Json.Str(p.riskLabel)])
  }

  /** `POST /predict`: a 422 listing the errors when the body does not validate, otherwise
      the handler's reply; an `HTTPException` becomes `{"detail": ...}` with its status. */
  function Handle(body: Json.Value, model: Option<Classifier>, inference: Inference): (resp: HttpResponse)
    ensures Validate(body).Err? ==> resp.status == 422
    ensures resp.status == 200 <==> Validate(body).Ok? && model.Some? && inference.Computed?
    ensures resp.status != 200 ==> resp.body.Object? && "detail" in resp.body.fields
  {
    match Validate(body)
    case Err(errors) =>
      var details := seq(|errors|, i requires 0 <= i < |errors| => ErrorJson(errors[i]));
      HttpResponse(422, Json.Object(map["detail" := Json.Array(details)]))
    case Ok(input) =>
      match Predict(input, model, inference)
      case Success(response) => HttpResponse(200, ResponseJson(response))
      case HttpError(status, detail) => HttpResponse(status, Json.Object(map["detail" := Json.Str(detail)]))
  }

  // ---------------------------------------------------------------------------
  // The process-wide model slot.

  class Server {
    /** The global `model`; `None` until start-up loads one. */
    var model: Option<Classifier>

    constructor ()
      ensures model == None
    {
      model := None;
    }

    /** `load_model()` at start-up. Whether the model file exists and what unpickling it
        gives (`None` when opening or unpickling raises) are parameters; on every failure
        the slot keeps its value. */
    method LoadModel(fileExists: bool, unpickled: Option<Classifier>)
      modifies this
      ensures model == if fileExists && unpickled.Some? then unpickled else old(model)
    {
      if fileExists {
        match unpickled {
          case Some(classifier) => model := Some(classifier);
          case None =>
        }
      }
    }

    /** A request to `/predict`, answered against the current slot; nothing changes. */
    method PostPredict(body: Json.Value, inference: Inference) returns (response: HttpResponse)
      ensures response == Handle(body, model, inference)
      ensures model.None? && Validate(body).Ok? ==>
        response == HttpResponse(500, Json.Object(map["detail" := Json.Str("Model not loaded")]))
    {
      response := Handle(body, model, inference);
    }
  }
}
