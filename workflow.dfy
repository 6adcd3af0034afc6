/**
 * The submission workflow across both sides: what the form lets through compared with
 * what the service accepts, and what a service reply becomes on the predict page and,
 * through the session store, on the results page.
 */
module Workflow {
  import opened Common
  import Json
  import opened Assessment
  import FormSchema
  import FormOptions
  import Backend
  import SessionStore
  import Submission
  import Results

  /** The fetched reply as the page sees it: `response.ok` is a 2xx status. */
  function Received(resp: Backend.HttpResponse): (o: Submission.FetchOutcome)
    ensures o.Responded? && o.body == Submission.Parsed(resp.body)
    ensures o.ok <==> 200 <= resp.status <= 299
  {
    Submission.Responded(200 <= resp.status <= 299, Submission.Parsed(resp.body))
  }

  predicate IsMeasurement(f: Field) {
    f == Age || f == Height || f == Weight || f == ApHi || f == ApLo
  }

  /** The option set of a coded field, as numbers. */
  function Options(f: Field): seq<string>
    requires !IsMeasurement(f)
  {
    match f
    case Gender => FormOptions.GenderItems
    case Cholesterol => FormOptions.LevelItems
    case Gluc => FormOptions.LevelItems
    case _ => FormOptions.YesNoItems
  }

  /** Field by field: the measurements have the same inclusive bounds on both sides; a coded
      field is in the service's range exactly when the form accepts it and it is one of its
      widget's options. */
  lemma FieldRulesCompared(f: Field, x: real)
    ensures IsMeasurement(f) ==> (Backend.FieldInRange(f, x) <==> FormSchema.FieldAccepts(f, x))
    ensures !IsMeasurement(f) ==>
      (Backend.FieldInRange(f, x) <==> FormSchema.FieldAccepts(f, x) && FormOptions.Chosen(x, Options(f)))
  {
    match f
    case Gender => FormOptions.GenderChosen(x);
    case Cholesterol => FormOptions.LevelChosen(x);
    case Gluc => FormOptions.LevelChosen(x);
    case Smoke => FormOptions.YesNoChosen(x);
    case Alco => FormOptions.YesNoChosen(x);
    case Active => FormOptions.YesNoChosen(x);
    case _ =>
  }

  /** The two reference predicates compared: the form's rules with widget-chosen codes are the
      service's bounds plus the cross-field rule. */
  lemma AcceptedCompared(r: Record)
    ensures (FormSchema.Accepted(r) && FormOptions.FromWidgets(r)) <==> (Backend.Accepted(r) && r.apHi > r.apLo)
  {
    FormOptions.FromWidgetsMeans(r);
  }

  /** What the form lets through with widget-chosen codes is exactly what the service accepts
      and has systolic above diastolic. */
  lemma AcceptanceCompared(r: Record)
    ensures (FormSchema.Parse(r).Ok? && FormOptions.FromWidgets(r))
        <==> (Backend.Validate(Encode(r)).Ok? && r.apHi > r.apLo)
  {
    FormSchema.ParseAcceptsExactly(r);
    Backend.ValidateEncodedExactly(r);
    AcceptedCompared(r);
  }

  /** A record the form accepts, with codes from its widgets, is accepted by the service,
      which receives its values unchanged. */
  lemma FormAcceptedReachesService(r: Record)
    requires FormSchema.Parse(r).Ok?
    requires FormOptions.FromWidgets(r)
    ensures Backend.Validate(Encode(r)).Ok?
    ensures Backend.AsRecord(Backend.Validate(Encode(r)).value) == r
  {
    AcceptanceCompared(r);
    Backend.ValidateEncodedExactly(r);
  }

  /** The service has no cross-field rule: a record within every bound whose systolic
      pressure is not above its diastolic one is accepted there and refused by the form. */
  lemma ServiceLacksCrossFieldRule(r: Record)
    requires Backend.Accepted(r)
    requires r.apHi <= r.apLo
    ensures Backend.Validate(Encode(r)).Ok?
    ensures FormSchema.Parse(r).Err?
  {
    Backend.ValidateEncodedExactly(r);
  }

  /** A body the service refuses gets a 422 whose `detail` is a list, which the form shows as
      its string conversion rather than as a message. */
  lemma RefusedBodyShownAsConversion(body: Json.Value, model: Option<Backend.Classifier>, inference: Backend.Inference)
    requires Backend.Validate(body).Err?
    ensures Backend.Handle(body, model, inference).status == 422
    ensures Submission.Settle(Received(Backend.Handle(body, model, inference))).Show?
    ensures Submission.Settle(Received(Backend.Handle(body, model, inference))).message.StringOf?
  {
    var resp := Backend.Handle(body, model, inference);
    assert resp.body.fields["detail"].Array?;
  }

  /** The form checks only that a code is an integer: a record it accepts with gender 3, which
      no widget produces, is refused by the service with a 422, shown on the form as the
      string conversion of the error list. */
  lemma FormLeavesCodeRangesToWidgets(r: Record, model: Option<Backend.Classifier>, inference: Backend.Inference)
    requires FormSchema.Accepted(r)
    requires r.gender == 3.0
    ensures FormSchema.Parse(r).Ok?
    ensures Backend.Validate(Encode(r)).Err?
    ensures Backend.Handle(Encode(r), model, inference).status == 422
    ensures Submission.Settle(Received(Backend.Handle(Encode(r), model, inference))).message.StringOf?
  {
    FormSchema.ParseAcceptsExactly(r);
    Backend.ValidateEncodedExactly(r);
    RefusedBodyShownAsConversion(Encode(r), model, inference);
  }

  /** What a fresh results page shows once the store holds what the predict page wrote. */
  function ShownAfter(items: map<string, SessionStore.Text>, data: Json.Value): Results.Screen {
    var written := items[Submission.ResultKey := SessionStore.Serialized(data)];
    Results.Render(Results.ReadBack(
      if Results.StoredKey in written then Some(written[Results.StoredKey]) else None, Json.Null))
  }

  /** Round trip: the results page reads back exactly what the predict page stored. */
  lemma HandoffRoundTrip(items: map<string, SessionStore.Text>, data: Json.Value)
    ensures ShownAfter(items, data) == Results.Render(data)
  {
    assert Results.StoredKey == Submission.ResultKey;
  }

  /** The results page for a 200 reply of the handler. */
  predicate ShowsReply(screen: Results.Screen, body: Json.Value, classifier: Backend.Classifier, predicted: real, classOne: real) {
    var score := if classifier.hasPredictProba then classOne else predicted;
    && screen.Report?
    && (screen.highRisk <==> Backend.PyInt(predicted) == 1)
    && body.Object? && "risk_label" in body.fields
    && (screen.title == Results.HighRiskTitle <==> body.fields["risk_label"] == Json.Str(Backend.HighRisk))
    && (screen.probability.NotAvailable? <==> score == 0.0)
  }

  /** A valid body answered by a loaded classifier ends on the results page, which reports
      high risk exactly when the class is 1, agrees with the service's risk label, and shows
      "N/A" exactly when the risk score is 0. */
  lemma ValidBodyReachesResults(
    body: Json.Value, classifier: Backend.Classifier, predicted: real, classOne: real,
    items: map<string, SessionStore.Text>)
    requires Backend.Validate(body).Ok?
    ensures var resp := Backend.Handle(body, Some(classifier), Backend.Computed(predicted, classOne));
      && resp.status == 200
      && Submission.Settle(Received(resp)) == Submission.Keep(resp.body)
      && ShowsReply(ShownAfter(items, resp.body), resp.body, classifier, predicted, classOne)
  {
    var input := Backend.Validate(body).value;
    var reply := Backend.Predict(input, Some(classifier), Backend.Computed(predicted, classOne));
    var resp := Backend.Handle(body, Some(classifier), Backend.Computed(predicted, classOne));
    assert resp == Backend.HttpResponse(200, Backend.ResponseJson(reply.response));
    HandoffRoundTrip(items, resp.body);
    var prediction := reply.response.prediction;
    assert Json.Read(resp.body, Json.Prediction) == Json.Defined(Json.Number(prediction as real));
    assert Json.Number(prediction as real) == Json.Number(1.0) <==> prediction == 1;
  }

  /** End to end: a form-accepted record with widget-chosen codes, answered by a loaded
      classifier, is shown on the results page as ValidBodyReachesResults describes. */
  lemma ComputedPredictionReachesResults(
    r: Record, classifier: Backend.Classifier, predicted: real, classOne: real,
    items: map<string, SessionStore.Text>)
    requires FormSchema.Parse(r).Ok?
    requires FormOptions.FromWidgets(r)
    ensures var resp := Backend.Handle(Encode(r), Some(classifier), Backend.Computed(predicted, classOne));
      && resp.status == 200
      && Submission.Settle(Received(resp)) == Submission.Keep(resp.body)
      && ShowsReply(ShownAfter(items, resp.body), resp.body, classifier, predicted, classOne)
  {
    FormAcceptedReachesService(r);
    ValidBodyReachesResults(Encode(r), classifier, predicted, classOne, items);
  }

  /** Handler failures on a valid body reach the form as their detail text, with no navigation. */
  lemma ValidBodyFailureShownOnForm(body: Json.Value, model: Option<Backend.Classifier>, inference: Backend.Inference)
    requires Backend.Validate(body).Ok?
    ensures model.None? ==>
      Submission.Settle(Received(Backend.Handle(body, model, inference)))
        == Submission.Show(Submission.Text("Model not loaded"))
    ensures model.Some? && inference.Raised? ==>
      Submission.Settle(Received(Backend.Handle(body, model, inference)))
        == Submission.Show(Submission.Text("Prediction error: " + inference.message))
  {
  }

  /** Without a loaded model, a form-accepted record leaves the page on the form showing
      exactly "Model not loaded". */
  lemma MissingModelShownOnForm(r: Record, inference: Backend.Inference)
    requires FormSchema.Parse(r).Ok?
    requires FormOptions.FromWidgets(r)
    ensures Submission.Settle(Received(Backend.Handle(Encode(r), None, inference)))
         == Submission.Show(Submission.Text("Model not loaded"))
  {
    FormAcceptedReachesService(r);
    ValidBodyFailureShownOnForm(Encode(r), None, inference);
  }

  /** An exception during inference is shown on the form as "Prediction error: " and its message. */
  lemma InferenceFailureShownOnForm(r: Record, classifier: Backend.Classifier, message: string)
    requires FormSchema.Parse(r).Ok?
    requires FormOptions.FromWidgets(r)
    ensures Submission.Settle(Received(Backend.Handle(Encode(r), Some(classifier), Backend.Raised(message))))
         == Submission.Show(Submission.Text("Prediction error: " + message))
  {
    FormAcceptedReachesService(r);
    ValidBodyFailureShownOnForm(Encode(r), Some(classifier), Backend.Raised(message));
  }

  /** A click followed by a visit to the results page: a record the form accepts whose request
      succeeds is shown there; a refused record sends nothing and stays on the form. */
  method SubmitThenVisitResults(
    page: Submission.PredictPage, store: SessionStore.Store, raw: Record, outcome: Submission.FetchOutcome)
    returns (screen: Results.Screen)
    requires !page.loading
    modifies page, store
    ensures FormSchema.Parse(raw).Err? ==> page.route == old(page.route) && page.requests == old(page.requests)
    ensures FormSchema.Parse(raw).Ok? ==> page.requests == old(page.requests) + [Encode(raw)]
    ensures FormSchema.Parse(raw).Ok? && Submission.Settle(outcome).Keep? ==>
      page.route == Submission.ResultsRoute && screen == Results.Render(Submission.Settle(outcome).data)
  {
    page.HandleSubmit(raw, outcome, store);
    var results := new Results.ResultsPage();
    results.Mount(store);
    screen := Results.Render(results.result);
  }
}
