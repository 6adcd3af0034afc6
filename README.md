# Cardiovascular risk assessment: form, service and results hand-off

This project models the core of a two-part web application that estimates cardiovascular
risk. On the predict page, the user fills an eleven-field assessment form. A validation
schema checks the values. On a click, the page posts them to a prediction service, which
validates them again with its own per-field bounds and answers with a classification, a
risk score and a risk label. The page stores a successful reply in the browser's
session store and navigates to the results page. That page reads the reply back and shows
a high- or low-risk verdict with the score.

Modules:

- `Assessment`: the submitted record, with its JSON names and encoding.
- `Json`: parsed JSON values, JavaScript truthiness, and property reads, including a read from `null`.
- `FormSchema`: the form's zod schema as a rule table, the issues zod raises, and a reference predicate `Accepted` proved equal to it.
- `FormOptions`: the default values, and the numbers the Select and Radio widgets can produce.
- `SessionStore`: the browser store, as a class over a map.
- `Submission`: `onSubmit` and `handleSubmit` as a class `PredictPage` whose methods update `loading`, `error`, the per-field errors, the route and the request log. A ghost trace records each state update.
- `Results`: the mount effect, as a class `ResultsPage`, and the rendering, as a function.
- `Backend`: the service's `PredictionInput` constraints, the `/predict` handler, the HTTP response shapes, and the global model slot, as a class `Server`.
- `Workflow`: the two sides together. It covers what the form lets through against what the service accepts, and what each kind of reply becomes on each page.

Facts about the code that the model makes explicit:

- The schema checks the coded answers (gender, cholesterol, glucose, smoking, alcohol, activity) only for being integers. Their ranges come from the widgets alone (`FormLeavesCodeRangesToWidgets`).
- The age message reads "Age must be under 80", yet 80 itself passes `.max(80)`. The model keeps the message text and the inclusive bound as written.
- The service has no rule relating systolic and diastolic pressure (`ServiceLacksCrossFieldRule`).

## Model

| member | source | states |
|---|---|---|
| Assessment.Encode | frontend/cardio_vascular/app/predict/page.tsx:78 | the request body is an object holding every field's number under its JSON name |
| Json.Read | frontend/cardio_vascular/app/predict/page.tsx:83 | reading a property throws exactly on `null`; it is defined exactly on an object with that key, and then gives that key's value |
| FormSchema.CheckIssues | frontend/cardio_vascular/app/predict/page.tsx:34-44 | one field's checks raise issues only on that field, and none exactly when all its checks pass |
| FormSchema.ShapeIssues | frontend/cardio_vascular/app/predict/page.tsx:33-44 | the field rules raise issues attached to exactly the fields whose rule fails |
| FormSchema.RefineIssues | frontend/cardio_vascular/app/predict/page.tsx:45-48 | the refinement raises an issue exactly when systolic is not above diastolic, and only the refinement message on ap_lo |
| FormSchema.Issues | frontend/cardio_vascular/app/predict/page.tsx:33-48 | the schema's issues are attached to exactly the fields whose rule fails, plus ap_lo when systolic is not above diastolic |
| FormSchema.Parse | frontend/cardio_vascular/app/predict/page.tsx:33-48 | success returns the record unchanged; failure carries at least one issue; systolic not above diastolic always fails with the refinement issue on ap_lo |
| FormSchema.RowMeansFieldAccepts | frontend/cardio_vascular/app/predict/page.tsx:34-44 | each row of the schema passes exactly when the field's reference rule (inclusive bounds, or integrality) holds |
| FormSchema.ShapeFailingFields | frontend/cardio_vascular/app/predict/page.tsx:34-44 | the schema's rows fail for exactly the fields whose reference rule fails |
| FormSchema.IssueAtIff | frontend/cardio_vascular/app/predict/page.tsx:33-48 | a field gets an issue exactly when its own rule fails, or, for ap_lo, when systolic is not above diastolic, whatever the other fields hold |
| FormSchema.AcceptedByField | frontend/cardio_vascular/app/predict/page.tsx:33-48 | the reference predicate is the conjunction of the per-field rules and the cross-field rule |
| FormSchema.ParseAcceptsExactly | frontend/cardio_vascular/app/predict/page.tsx:33-48 | the schema accepts a record exactly when the reference predicate holds |
| FormOptions.ParseInt | frontend/cardio_vascular/app/predict/page.tsx:146 | on text that is empty or starts with a digit and has no sign, leading blank or radix prefix, as the item values are, `parseInt` gives a number exactly when the text starts with a digit; a single digit gives its value |
| FormOptions.Choices | frontend/cardio_vascular/app/predict/page.tsx:146-371 | a widget produces every number its item values parse to, and nothing else |
| FormOptions.GenderChosen | frontend/cardio_vascular/app/predict/page.tsx:146-156 | a value comes from the gender Select exactly when it is 1 or 2 |
| FormOptions.LevelChosen | frontend/cardio_vascular/app/predict/page.tsx:236-272 | a value comes from the cholesterol or glucose Select exactly when it is 1, 2 or 3 |
| FormOptions.YesNoChosen | frontend/cardio_vascular/app/predict/page.tsx:299-371 | a value comes from a yes/no RadioGroup exactly when it is 0 or 1 |
| FormOptions.ChoicesOfSingleDigits | frontend/cardio_vascular/app/predict/page.tsx:146-156 | for single-digit item values, a widget produces exactly the digits of its items |
| FormOptions.GenderOptions | frontend/cardio_vascular/app/predict/page.tsx:146-156 | the gender Select produces exactly {1, 2} |
| FormOptions.LevelOptions | frontend/cardio_vascular/app/predict/page.tsx:236-272 | the cholesterol and glucose Selects produce exactly {1, 2, 3} |
| FormOptions.YesNoOptions | frontend/cardio_vascular/app/predict/page.tsx:299-371 | the smoking, alcohol and activity RadioGroups produce exactly {0, 1} |
| FormOptions.OptionSets | frontend/cardio_vascular/app/predict/page.tsx:146-371 | the three option sets together |
| FormOptions.DefaultsAreOptions | frontend/cardio_vascular/app/predict/page.tsx:60-67 | every default value is one its widget can produce |
| FormOptions.FromWidgetsMeans | frontend/cardio_vascular/app/predict/page.tsx:141-375 | a record's coded answers come from the widgets exactly when each is one of its listed numbers |
| SessionStore.Store.constructor | frontend/cardio_vascular/app/results/page.tsx:14 | a fresh store holds no item |
| SessionStore.Store.GetItem | frontend/cardio_vascular/app/results/page.tsx:14 | an item is found exactly under a key that was set, and then it is the stored text |
| SessionStore.Store.SetItem | frontend/cardio_vascular/app/predict/page.tsx:89 | setting an item replaces that key's text and changes no other key |
| Submission.ErrorFor | frontend/cardio_vascular/app/predict/page.tsx:83 | `new Error(detail)` carries a string detail verbatim and converts any other value to a string |
| Submission.FailureMessage | frontend/cardio_vascular/app/predict/page.tsx:81-84 | a non-ok reply yields its truthy `detail` as the message, the fallback text when that is absent or falsy or the body does not parse, and a TypeError when the body is `null` |
| Submission.Settle | frontend/cardio_vascular/app/predict/page.tsx:74-93 | the result is stored exactly when the response is ok and its body parses; each other path yields its own message, including the generic text for a non-Error rejection |
| Submission.FieldErrors | frontend/cardio_vascular/app/predict/page.tsx:59 | the form shows an error for exactly the fields with an issue, and the first issue of a field wins |
| Submission.FieldErrorsConcat | frontend/cardio_vascular/app/predict/page.tsx:59 | in two runs of issues, the first run's message wins for a field |
| Submission.FieldErrorOfRows | frontend/cardio_vascular/app/predict/page.tsx:33-59 | a field whose rows all have the same checks shows the message of the first one that fails |
| Submission.DiastolicRowOnly | frontend/cardio_vascular/app/predict/page.tsx:39 | ap_lo has one rule, the diastolic bounds |
| Submission.DiastolicRowMessage | frontend/cardio_vascular/app/predict/page.tsx:39 | a failing diastolic check means the value is out of [30, 150], and the first message names the violated bound |
| Submission.DiastolicRangeMessage | frontend/cardio_vascular/app/predict/page.tsx:39 | the diastolic range message is what the field shows when its own rule fails |
| Submission.DiastolicInRange | frontend/cardio_vascular/app/predict/page.tsx:39 | with no issue from its own rule, diastolic is within [30, 150] |
| Submission.DiastolicMessageOfRows | frontend/cardio_vascular/app/predict/page.tsx:39-48 | combines the range message and the refinement issue for any table that holds the diastolic row |
| Submission.DiastolicMessage | frontend/cardio_vascular/app/predict/page.tsx:39-48 | when systolic is not above diastolic, ap_lo shows its range message if diastolic is out of range, otherwise the refinement's message |
| Submission.PredictPage.constructor | frontend/cardio_vascular/app/predict/page.tsx:53-55 | the page starts on /predict, not loading, with no error, no field errors and no request sent |
| Submission.PredictPage.SetLoading | frontend/cardio_vascular/app/predict/page.tsx:55 | updates `loading` only, and records the state update |
| Submission.PredictPage.SetError | frontend/cardio_vascular/app/predict/page.tsx:54 | updates `error` only, and records the state update |
| Submission.PredictPage.OnSubmit | frontend/cardio_vascular/app/predict/page.tsx:70-97 | sends exactly one request with the encoded values and always ends not loading; on success it clears the error, stores the body under predictionResult and routes to /results; otherwise it shows the message, stays, and leaves the store alone; the sequence of state updates it makes, in order |
| Submission.PredictPage.HandleSubmit | frontend/cardio_vascular/app/predict/page.tsx:107 | a click is ignored while loading (the button is disabled, line 384); a record with issues sets the per-field errors and sends nothing; a valid one clears the field errors and submits |
| Results.ReadBack | frontend/cardio_vascular/app/results/page.tsx:12-22 | the mount effect adopts the stored result when the text parses and otherwise keeps the current result |
| Results.Render | frontend/cardio_vascular/app/results/page.tsx:24-48 | the empty state exactly for a falsy result; high risk exactly when `prediction` is the number 1; the title follows the verdict; "N/A" exactly when `probability` is falsy or missing |
| Results.FreshPageShows | frontend/cardio_vascular/app/results/page.tsx:10-32 | a fresh page shows the stored result, and the empty state when nothing parseable is stored |
| Results.ZeroProbabilityNotAvailable | frontend/cardio_vascular/app/results/page.tsx:36 | a probability of exactly 0 is shown as "N/A", like a missing one |
| Results.ResultsPage.constructor | frontend/cardio_vascular/app/results/page.tsx:10 | the result starts as `null` |
| Results.ResultsPage.Mount | frontend/cardio_vascular/app/results/page.tsx:12-22 | the result after mounting is the read-back of the stored item |
| Backend.CheckField | backend/main.py:44-54 | a field is refused as missing exactly when its key is absent, and passes exactly when it holds a number within its inclusive bounds that, for an `int` field, is whole |
| Backend.Build | backend/main.py:43-54 | the validated request carries the body's numbers: unchanged for `float` fields, and as the same whole number for `int` fields |
| Backend.ErrorJson | backend/main.py:43-54 | each 422 entry names its error type and a location starting at the body, followed by the field name for a field error; the type is "missing" exactly for a missing body or field |
| Backend.FieldErrors | backend/main.py:43-54 | the errors are empty exactly when no field is refused, and are attached to exactly the refused fields |
| Backend.Validate | backend/main.py:43-61 | a refusal lists at least one error; a `null` body is refused as missing and any other non-object body as the wrong type; an object is accepted exactly when no field is refused, and the request is built from its fields |
| Backend.RowMeansFieldInRange | backend/main.py:44-54 | each constraint row passes a number exactly when the field's reference rule holds |
| Backend.EncodedRefusedIff | backend/main.py:44-54 | a field of the form's body is refused exactly when its value breaks its bounds or, for int fields, has a fractional part |
| Backend.AcceptedByField | backend/main.py:43-54 | the service's reference predicate is the conjunction of its per-field rules |
| Backend.EncodedValuesKept | backend/main.py:43-54 | the validated request carries the accepted record's values unchanged |
| Backend.ValidateEncodedExactly | backend/main.py:43-54 | the service accepts the form's body exactly when every field is within its bounds, and keeps the values |
| Backend.PyInt | backend/main.py:88 | `int()` truncates toward zero |
| Backend.Predict | backend/main.py:60-96 | without a model: 500 "Model not loaded"; an inference exception: 500 "Prediction error: " and its message; otherwise the class, the class-1 probability when `predict_proba` exists (else the class value), and "High Risk" exactly for class 1 |
| Backend.ResponseJson | backend/main.py:90-94 | the success body holds prediction, probability and risk_label with the reply's values |
| Backend.Handle | backend/main.py:60-96 | 422 for a body that fails validation; 200 exactly for a valid body with a loaded model and a computed inference; every other reply carries `detail` |
| Backend.Server.constructor | backend/main.py:27 | the model slot starts empty |
| Backend.Server.LoadModel | backend/main.py:29-40 | the slot is filled only when the file exists and unpickling succeeds; every failure leaves it as it was |
| Backend.Server.PostPredict | backend/main.py:60-63 | a request is answered by the handler against the current slot; with no model, a valid body gets 500 "Model not loaded" |
| Workflow.Received | frontend/cardio_vascular/app/predict/page.tsx:81 | `response.ok` is exactly a 2xx status, and the body is passed on |
| Workflow.FieldRulesCompared | backend/main.py:44-54 | the measurements have the same inclusive bounds on both sides; a coded field is in the service's range exactly when the form accepts it and a widget produces it |
| Workflow.AcceptedCompared | backend/main.py:43-54 | the form's rules with widget-produced codes are the service's bounds plus systolic above diastolic |
| Workflow.AcceptanceCompared | backend/main.py:43-54 | the form lets a record through with widget-produced codes exactly when the service accepts it and systolic is above diastolic |
| Workflow.FormAcceptedReachesService | backend/main.py:43-54 | whatever the form sends with widget-produced codes is accepted by the service unchanged |
| Workflow.ServiceLacksCrossFieldRule | backend/main.py:43-54 | a record within every bound, with systolic not above diastolic, is accepted by the service but refused by the form |
| Workflow.RefusedBodyShownAsConversion | frontend/cardio_vascular/app/predict/page.tsx:81-84 | a 422 from the service reaches the form as the string conversion of its error list, not as a message |
| Workflow.FormLeavesCodeRangesToWidgets | frontend/cardio_vascular/app/predict/page.tsx:35 | a form-accepted record with gender 3 is refused by the service with 422 and shown as the string conversion |
| Workflow.HandoffRoundTrip | frontend/cardio_vascular/app/results/page.tsx:14-17 | the results page reads back exactly what the predict page stored |
| Workflow.ValidBodyReachesResults | backend/main.py:84-94 | a valid body answered by a classifier gets 200, is stored, and is shown as high risk exactly for class 1, with a title that agrees with the risk label and "N/A" exactly for a zero score |
| Workflow.ComputedPredictionReachesResults | backend/main.py:84-94 | the same, end to end, from a record the form accepts with widget-produced codes |
| Workflow.ValidBodyFailureShownOnForm | backend/main.py:60-96 | for a valid body, a missing model or an inference exception reaches the form as the exact detail text |
| Workflow.MissingModelShownOnForm | backend/main.py:62-63 | without a model, a form-accepted record ends with "Model not loaded" on the form |
| Workflow.InferenceFailureShownOnForm | backend/main.py:95-96 | an inference exception ends with "Prediction error: " and its message on the form |
| Workflow.SubmitThenVisitResults | frontend/cardio_vascular/app/predict/page.tsx:86-90 | a refused record sends nothing and stays; an accepted one is sent, and a kept reply is what the results page then shows |

## Left out

- The network: `fetch`, its transport, CORS and server hosting. A request's outcome is a parameter (`FetchOutcome`, `Inference`), and the log of requests records what was sent.
- `JSON.stringify`/`JSON.parse` as text: a stored string is modelled by what parsing makes of it (`SessionStore.Text`). Number formatting and precision are not modelled.
- `z.coerce.number()`: the record holds the numbers after coercion. The measurement inputs have no defaults: one the user never touched holds `undefined`, which coerces to NaN, and one typed into and cleared holds `""`, which coerces to 0. Neither case is modelled separately, and NaN is not a value of the model.
- `(probability * 100).toFixed(1)`: the percentage text is not computed; `Results.ProbabilityLabel` carries the value it formats.
- `Submission.ErrorFor`: `String(value)` for a non-string detail (a 422 error list with two entries shows as "[object Object],[object Object]") is left symbolic (`StringOf`).
- `sessionStorage.setItem` throwing (quota, private mode) and `console.error` logging are not modelled.
- React's hooks, effects and re-rendering are given sequential semantics. The ghost trace records state updates, not renders; React batches them into fewer renders. Concurrent clicks are excluded by the disabled button.
- The classifier: unpickling, `os.path.exists`, pandas, numpy and XGBoost. Their results are parameters (`LoadModel`'s arguments and `Inference`). The start-up `print` messages are left out.
- Pydantic's lax coercions of numeric strings and booleans, and the message and input text of each 422 error, are not modelled. Errors carry their type and location only.
- FormSchema.Parse: follows zod 3. A failed `.int()` gives zod 3's message "Expected integer, received float", and the refinement runs even when a field check has failed. zod 4 words that message differently and skips the refinement after such a failure; the version is not fixed by the page.
- `Backend.CheckField`: a whole-number float given to an `int` field is accepted, and one with a fractional part is refused (pydantic v2 behaviour).
- The service's `GET /` health route, and the static pages (home, how-to, disclaimer, layout, navigation bar, footer), which hold no logic.
