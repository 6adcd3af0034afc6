/**
 * The predict page's submission: `form.handleSubmit(onSubmit)`. The form's resolver
 * runs the schema; only a record without issues reaches `onSubmit`, which drives the
 * `loading` and `error` state, sends one request, and on success stores the response
 * body for the results page and navigates there.
 *
 * The request itself is not modelled: its outcome is a parameter (FetchOutcome).
 * Hooks are given sequential semantics; each state update is recorded in the ghost
 * trace `updates` (React may batch several updates into one render).
 */
module Submission {
  import opened Common
  import Json
  import opened Assessment
  import opened FormSchema
  import opened SessionStore

  const Endpoint: string := "https://cardio-project-r62i.onrender.com/predict"
  const ResultKey: string := "predictionResult"
  const PredictRoute: string := "/predict"
  const ResultsRoute: string := "/results"
  const FallbackMessage: string := "Failed to connect to prediction service."
  const UnexpectedMessage: string := "An unexpected error occurred. Please try again."

  /** What a rejected promise carried: an `Error` with its message, or something else. */
  datatype Thrown = ErrorObject(message: string) | NonError

  /** The body as `response.json()` gives it: parsed, or rejected with a SyntaxError. */
  datatype Body = Parsed(value: Json.Value) | Unparsable(message: string)

  /** How the `fetch` call ended: rejected (network failure), or with a response whose
      `ok` flag says whether the status was 2xx. */
  datatype FetchOutcome = Rejected(thrown: Thrown) | Responded(ok: bool, body: Body)

  /** The error banner's text: a string, the string conversion `String(value)` of a
      non-string value (not computed here), or the TypeError of reading `detail` of `null`. */
  datatype ErrorMessage = Text(text: string) | StringOf(value: Json.Value) | NullRead

  /** The message of `new Error(detail)`. */
  function ErrorFor(detail: Json.Value): (m: ErrorMessage)
    ensures detail.Str? <==> m.Text?
    ensures detail.Str? ==> m.text == detail.s
    ensures !m.NullRead?
  {
    if detail.Str? then Text(detail.s) else StringOf(detail)
  }

  /** The message thrown for a non-ok response: `errorData.detail || FallbackMessage`, where
      `errorData` is the parsed body, or `{}` when the body does not parse. */
  function FailureMessage(body: Body): (m: ErrorMessage)
    ensures body.Parsed? && body.value.Null? ==> m == NullRead
    ensures body.Parsed? && body.value.Object? && "detail" in body.value.fields
            && Json.Truthy(body.value.fields["detail"])
            ==> m == ErrorFor(body.value.fields["detail"])
    ensures !(body.Parsed? && body.value.Null?)
            && !(body.Parsed? && body.value.Object? && "detail" in body.value.fields
                 && Json.Truthy(body.value.fields["detail"]))
            ==> m == Text(FallbackMessage)
  {
    var errorData := if body.Parsed? then body.value else Json.Object(map[]);
    var detail := Json.Read(errorData, Json.Detail);
    if detail.ReadOfNull? then NullRead
    else if Json.TruthyProperty(detail) then ErrorFor(detail.value)
    else Text(FallbackMessage)
  }

  /** Where the `try` block ends: storing the parsed body, or showing an error. */
  datatype Settlement = Keep(data: Json.Value) | Show(message: ErrorMessage)

  function Settle(outcome: FetchOutcome): (s: Settlement)
    ensures s.Keep? <==> outcome.Responded? && outcome.ok && outcome.body.Parsed?
    ensures s.Keep? ==> s.data == outcome.body.value
    ensures outcome.Responded? && !outcome.ok ==> s == Show(FailureMessage(outcome.body))
    ensures outcome.Responded? && outcome.ok && outcome.body.Unparsable?
            ==> s == Show(Text(outcome.body.message))
    ensures outcome == Rejected(NonError) ==> s == Show(Text(UnexpectedMessage))
    ensures outcome.Rejected? && outcome.thrown.ErrorObject?
            ==> s == Show(Text(outcome.thrown.message))
  {
    match outcome
    case Rejected(ErrorObject(message)) => Show(Text(message))
    case Rejected(NonError) => Show(Text(UnexpectedMessage))
    case Responded(false, body) => Show(FailureMessage(body))
    case Responded(true, Unparsable(message)) => Show(Text(message))
    case Responded(true, Parsed(data)) => Keep(data)
  }

  /** The errors the form shows per field: zodResolver keeps the first issue of each path,
      so a field shows an error exactly when some issue is attached to it. */
  function FieldErrors(issues: seq<Issue>): (m: map<Field, string>)
    ensures m.Keys == Paths(issues)
    ensures issues != [] ==> issues[0].path in m && m[issues[0].path] == issues[0].message
  {
    if issues == [] then map[]
    else FieldErrors(issues[1..])[issues[0].path := issues[0].message]
  }

  /** Of two runs of issues, the first run's message wins for each field. */
  lemma {:induction false} FieldErrorsConcat(a: seq<Issue>, b: seq<Issue>, f: Field)
    requires f in Paths(a) || f in Paths(b)
    ensures f in FieldErrors(a + b)
    ensures FieldErrors(a + b)[f] == if f in Paths(a) then FieldErrors(a)[f] else FieldErrors(b)[f]
  {
    PathsConcat(a, b);
    if a == [] {
      assert a + b == b;
    } else {
      assert (a + b)[0] == a[0];
      assert (a + b)[1..] == a[1..] + b;
      assert FieldErrors(a + b) == FieldErrors(a[1..] + b)[a[0].path := a[0].message];
      assert FieldErrors(a) == FieldErrors(a[1..])[a[0].path := a[0].message];
      if f != a[0].path {
        assert f in Paths(a[1..]) || f in Paths(b);
        FieldErrorsConcat(a[1..], b, f);
      }
    }
  }

  predicate OnlyRowFor(rules: seq<FieldRule>, f: Field, cs: seq<Check>) {
    forall k :: 0 <= k < |rules| && rules[k].field == f ==> rules[k].checks == cs
  }

  /** When every row for f has the checks cs, the error shown for f is the message of the
      first of those checks that fails. */
  lemma {:induction false} FieldErrorOfRows(rules: seq<FieldRule>, r: Record, f: Field, cs: seq<Check>)
    requires OnlyRowFor(rules, f, cs)
    requires f in FieldErrors(ShapeIssues(rules, r))
    ensures CheckIssues(f, cs, Get(r, f)) != []
    ensures FieldErrors(ShapeIssues(rules, r))[f] == CheckIssues(f, cs, Get(r, f))[0].message
  {
    var head := CheckIssues(rules[0].field, rules[0].checks, Get(r, rules[0].field));
    var rest := ShapeIssues(rules[1..], r);
    assert ShapeIssues(rules, r) == head + rest;
    PathsConcat(head, rest);
    FieldErrorsConcat(head, rest, f);
    if f in Paths(head) {
      assert rules[0].field == f;
    } else {
      assert OnlyRowFor(rules[1..], f, cs) by {
        forall k | 0 <= k < |rules[1..]| && rules[1..][k].field == f ensures rules[1..][k].checks == cs {
          assert rules[1..][k] == rules[k + 1];
        }
      }
      FieldErrorOfRows(rules[1..], r, f, cs);
    }
  }

  const DiastolicChecks: seq<Check> := [Min(30.0, "Diastolic BP too low"), Max(150.0, "Diastolic BP too high (max 150)")]

  /** The diastolic row is the only row for ap_lo. */
  lemma DiastolicRowOnly()
    ensures OnlyRowFor(Shape, ApLo, DiastolicChecks)
  {
  }

  /** The first issue the diastolic checks raise is a range message. */
  lemma DiastolicRowMessage(x: real)
    requires CheckIssues(ApLo, DiastolicChecks, x) != []
    ensures x < 30.0 || x > 150.0
    ensures CheckIssues(ApLo, DiastolicChecks, x)[0].message ==
      if x < 30.0 then "Diastolic BP too low" else "Diastolic BP too high (max 150)"
  {
    assert DiastolicChecks[1..][1..] == [];
  }

  /** When the diastolic rows raise an issue, the first one is what the field shows. */
  lemma DiastolicRangeMessage(rules: seq<FieldRule>, r: Record)
    requires OnlyRowFor(rules, ApLo, DiastolicChecks)
    requires ApLo in FieldErrors(ShapeIssues(rules, r))
    ensures r.apLo < 30.0 || r.apLo > 150.0
    ensures FieldErrors(ShapeIssues(rules, r))[ApLo] ==
      if r.apLo < 30.0 then "Diastolic BP too low" else "Diastolic BP too high (max 150)"
  {
    FieldErrorOfRows(rules, r, ApLo, DiastolicChecks);
    DiastolicRowMessage(r.apLo);
  }

  /** When the diastolic rows raise no issue, the value is within its bounds. */
  lemma DiastolicInRange(rules: seq<FieldRule>, r: Record)
    requires exists k :: 0 <= k < |rules| && rules[k] == FieldRule(ApLo, DiastolicChecks)
    requires ApLo !in FieldErrors(ShapeIssues(rules, r))
    ensures 30.0 <= r.apLo <= 150.0
  {
    FailingFieldsAt(rules, r, ApLo);
    var k :| 0 <= k < |rules| && rules[k] == FieldRule(ApLo, DiastolicChecks);
    assert AllPass(rules[k].checks, r.apLo);
    assert DiastolicChecks[0] in rules[k].checks && DiastolicChecks[1] in rules[k].checks;
  }

  lemma DiastolicMessageOfRows(rules: seq<FieldRule>, r: Record)
    requires OnlyRowFor(rules, ApLo, DiastolicChecks)
    requires exists k :: 0 <= k < |rules| && rules[k] == FieldRule(ApLo, DiastolicChecks)
    requires r.apHi <= r.apLo
    ensures ApLo in FieldErrors(ShapeIssues(rules, r) + RefineIssues(r))
    ensures FieldErrors(ShapeIssues(rules, r) + RefineIssues(r))[ApLo] ==
      if r.apLo < 30.0 then "Diastolic BP too low"
      else if r.apLo > 150.0 then "Diastolic BP too high (max 150)"
      else RefineMessage
  {
    var shapeIssues := ShapeIssues(rules, r);
    assert RefineIssues(r) == [Issue(ApLo, RefineMessage)];
    PathsConcat(shapeIssues, RefineIssues(r));
    FieldErrorsConcat(shapeIssues, RefineIssues(r), ApLo);
    if ApLo in FieldErrors(shapeIssues) {
      DiastolicRangeMessage(rules, r);
    } else {
      DiastolicInRange(rules, r);
    }
  }

  /** The message under the diastolic field when systolic is not above diastolic: its own
      range message when it is out of range, otherwise the refinement's message. */
  lemma DiastolicMessage(r: Record)
    requires r.apHi <= r.apLo
    ensures ApLo in FieldErrors(Issues(r))
    ensures FieldErrors(Issues(r))[ApLo] ==
      if r.apLo < 30.0 then "Diastolic BP too low"
      else if r.apLo > 150.0 then "Diastolic BP too high (max 150)"
      else RefineMessage
  {
    DiastolicRowOnly();
    assert Shape[5] == FieldRule(ApLo, DiastolicChecks);
    DiastolicMessageOfRows(Shape, r);
  }

  /** The page's state after each state update, in order. */
  datatype Snapshot = Snapshot(loading: bool, error: Option<ErrorMessage>)

  class PredictPage {
    var loading: bool
    var error: Option<ErrorMessage>
    var fieldErrors: map<Field, string>
    var route: string
    /** The bodies of the requests sent to Endpoint, oldest first. */
    var requests: seq<Json.Value>
    ghost var updates: seq<Snapshot>

    constructor ()
      ensures !loading && error == None && fieldErrors == map[] && route == PredictRoute
      ensures requests == [] && updates == []
    {
      loading, error, fieldErrors, route, requests := false, None, map[], PredictRoute, [];
      updates := [];
    }

    method SetLoading(b: bool)
      modifies this
      ensures loading == b && updates == old(updates) + [Snapshot(b, error)]
      ensures error == old(error) && fieldErrors == old(fieldErrors)
      ensures route == old(route) && requests == old(requests)
    {
      loading := b;
      updates := updates + [Snapshot(loading, error)];
    }

    method SetError(e: Option<ErrorMessage>)
      modifies this
      ensures error == e && updates == old(updates) + [Snapshot(loading, e)]
      ensures loading == old(loading) && fieldErrors == old(fieldErrors)
      ensures route == old(route) && requests == old(requests)
    {
      error := e;
      updates := updates + [Snapshot(loading, error)];
    }

    /** `onSubmit(values)`: loading is raised and the error cleared on entry, exactly one
        request is sent, and loading is lowered on every way out. */
    method OnSubmit(values: Record, outcome: FetchOutcome, store: Store)
      modifies this, store
      ensures !loading && fieldErrors == old(fieldErrors)
      ensures requests == old(requests) + [Encode(values)]
      ensures match Settle(outcome)
        case Keep(data) =>
          && error == None && route == ResultsRoute
          && store.items == old(store.items)[ResultKey := Serialized(data)]
          && updates == old(updates) + [Snapshot(true, old(error)), Snapshot(true, None), Snapshot(false, None)]
        case Show(m) =>
          && error == Some(m) && route == old(route) && store.items == old(store.items)
          && updates == old(updates) + [Snapshot(true, old(error)), Snapshot(true, None),
                                        Snapshot(true, Some(m)), Snapshot(false, Some(m))]
    {
      SetLoading(true);
      SetError(None);
      requests := requests + [Encode(values)];
      match Settle(outcome) {
        case Keep(data) =>
          store.SetItem(ResultKey, Serialized(data));
          route := ResultsRoute;
        case Show(m) =>
          SetError(Some(m));
      }
      SetLoading(false);
    }

    /** A click on the submit button: ignored while loading (the button is disabled);
        otherwise the schema runs, and only a record without issues is submitted. */
    method HandleSubmit(raw: Record, outcome: FetchOutcome, store: Store)
      modifies this, store
      ensures old(loading) ==>
        && loading && error == old(error) && fieldErrors == old(fieldErrors) && route == old(route)
        && requests == old(requests) && updates == old(updates) && store.items == old(store.items)
      ensures !old(loading) && Parse(raw).Err? ==>
        && fieldErrors == FieldErrors(Parse(raw).error)
        && !loading && error == old(error) && route == old(route)
        && requests == old(requests) && updates == old(updates) && store.items == old(store.items)
      ensures !old(loading) && Parse(raw).Ok? ==>
        && fieldErrors == map[] && !loading
        && requests == old(requests) + [Encode(raw)]
        && (Settle(outcome).Keep? ==>
              error == None && route == ResultsRoute
              && store.items == old(store.items)[ResultKey := Serialized(Settle(outcome).data)])
        && (Settle(outcome).Show? ==>
              error == Some(Settle(outcome).message) && route == old(route)
              && store.items == old(store.items))
    {
      if loading {
        return;
      }
      match Parse(raw)
      case Err(issues) =>
        fieldErrors := FieldErrors(issues);
      case Ok(values) =>
        fieldErrors := map[];
        OnSubmit(values, outcome, store);
    }
  }
}
