/**
 * The results page: on mount it reads the stored result back from the session store;
 * what it shows is a pure function of that result.
 */
module Results {
  import opened Common
  import Json
  import opened SessionStore

  /** The key the page reads (written as its own literal in the page). */
  const StoredKey: string := "predictionResult"
  const EmptyMessage: string := "No result found."
  const HighRiskTitle: string := "High Risk Detected"
  const LowRiskTitle: string := "Low Risk Detected"

  /** The probability line: "N/A", or `(probability * 100).toFixed(1)` of the stored
      probability (the number formatting itself is not modelled). */
  datatype ProbabilityLabel = NotAvailable | Percent(probability: Json.Value)

  datatype Screen =
    | NoResult(message: string)
    | Report(highRisk: bool, title: string, probability: ProbabilityLabel)

  /** The result after the mount effect: the parsed stored text when there is a non-empty
      one that parses; otherwise the result is left as it was (a parse failure is only logged). */
  function ReadBack(stored: Option<Text>, current: Json.Value): (r: Json.Value)
    ensures stored.None? ==> r == current
    ensures stored.Some? && stored.value.Malformed? ==> r == current
    ensures stored.Some? && stored.value.Serialized? ==> r == stored.value.value
  {
    if stored.Some? && NonEmpty(stored.value) && stored.value.Serialized? then stored.value.value
    else current
  }

  /** What the page shows for a result. */
  function Render(result: Json.Value): (s: Screen)
    ensures s.NoResult? <==> !Json.Truthy(result)
    ensures s.NoResult? ==> s.message == EmptyMessage
    ensures s.Report? ==>
      (s.highRisk <==> Json.Read(result, Json.Prediction) == Json.Defined(Json.Number(1.0)))
    ensures s.Report? ==> (s.title == HighRiskTitle <==> s.highRisk)
    ensures s.Report? && !s.highRisk ==> s.title == LowRiskTitle
    ensures s.Report? ==>
      (s.probability.NotAvailable? <==> !Json.TruthyProperty(Json.Read(result, Json.Probability)))
    ensures s.Report? && s.probability.Percent? ==>
      Json.Read(result, Json.Probability) == Json.Defined(s.probability.probability)
  {
    if !Json.Truthy(result) then NoResult(EmptyMessage)
    else
      var isHighRisk := Json.Read(result, Json.Prediction) == Json.Defined(Json.Number(1.0));
      var probability := Json.Read(result, Json.Probability);
      Report(
        isHighRisk,
        if isHighRisk then HighRiskTitle else LowRiskTitle,
        if Json.TruthyProperty(probability) then Percent(probability.value) else NotAvailable)
  }

  /** A freshly mounted page shows the stored result, and the empty state when nothing is
      stored under the key or the stored text does not parse. */
  lemma FreshPageShows(stored: Option<Text>)
    ensures Render(ReadBack(stored, Json.Null)) ==
      if stored.Some? && stored.value.Serialized? then Render(stored.value.value)
      else NoResult(EmptyMessage)
  {
  }

  /** A probability of exactly zero is shown as "N/A", like a missing one. */
  lemma ZeroProbabilityNotAvailable(fields: map<string, Json.Value>)
    requires "probability" in fields && fields["probability"] == Json.Number(0.0)
    ensures Render(Json.Object(fields)).Report?
    ensures Render(Json.Object(fields)).probability == NotAvailable
  {
  }

  class ResultsPage {
    /** `useState<any>(null)`. */
    var result: Json.Value

    constructor ()
      ensures result == Json.Null
    {
      result := Json.Null;
    }

    /** The mount effect: read the stored text and, when it parses, make it the result. */
    method Mount(store: Store)
      modifies this
      ensures result == ReadBack(store.GetItem(StoredKey), old(result))
    {
      var stored := store.GetItem(StoredKey);
      if stored.Some? && NonEmpty(stored.value) {
        match stored.value {
          case Serialized(value) => result := value;
          case Malformed(_) =>
        }
      }
    }
  }
}
