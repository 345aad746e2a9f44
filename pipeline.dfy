/**
 * The form, the service and the result card together: what the client does
 * with each response the service can send, and whether the form's payload
 * passes the service's key check.
 */
module Pipeline {
  import opened Wrappers
  import opened Wire
  import Backend
  import ResultCard

  /** The object `response.json()` yields for a response of the service. */
  function Decode(response: Backend.Response): Reply {
    match response.body
    case Prediction(_, risk, probability, _) => Reply(None, Some(risk), Some(probability))
    case Error(message) => Reply(Some(message), None, None)
  }

  /** The card's label for each of the service's tiers. */
  function LabelFor(t: Backend.Tier): ResultCard.RiskLabel {
    match t
    case Low => ResultCard.Low
    case Medium => ResultCard.Medium
    case High => ResultCard.High
  }

  /** The card recognises every tier name the service sends, and tells them apart. */
  lemma TierNamesRecognised(s: Backend.Tier, t: Backend.Tier)
    ensures ResultCard.LabelOf(Some(Backend.TierName(t))) == LabelFor(t)
    ensures LabelFor(t) != ResultCard.Unrecognised
    ensures LabelFor(s) == LabelFor(t) <==> s == t
  {
  }

  /**
   * A prediction reaches the card intact: the client keeps it as its
   * result, and the card shows the tier's own theme, its four
   * recommendations and the probability as a percentage.
   */
  lemma PredictionShown(columns: seq<string>, present: set<string>, inference: Backend.Inference)
    requires Backend.Predict(columns, present, inference).status == 200
    ensures var reply := Decode(Backend.Predict(columns, present, inference));
      var level := LabelFor(Backend.TierOf(inference.probability));
      && Succeeded(Received(reply))
      && ResultCard.Present(reply).level == level
      && ResultCard.Present(reply).theme == ResultCard.ThemeFor(level)
      && ResultCard.Present(reply).recommendations == ResultCard.Recommendations(level)
      && |ResultCard.Present(reply).recommendations| == 4
      && ResultCard.Present(reply).percent == Some(inference.probability * 100.0)
  {
    TierNamesRecognised(Backend.TierOf(inference.probability), Backend.TierOf(inference.probability));
  }

  /** A 400 for missing columns always carries a message, so the client treats it as a failed request. */
  lemma MissingColumnsFailOnClient(columns: seq<string>, present: set<string>, inference: Backend.Inference)
    requires Backend.Predict(columns, present, inference).status == 400
    ensures !Succeeded(Received(Decode(Backend.Predict(columns, present, inference))))
  {
  }

  /** An exception with a non-empty text is a failed request for the client too. */
  lemma ExceptionFailsOnClient(columns: seq<string>, present: set<string>, message: string)
    requires forall c :: c in columns ==> c in present
    requires message != ""
    ensures Backend.Predict(columns, present, Backend.Raised(message)).status == 500
    ensures !Succeeded(Received(Decode(Backend.Predict(columns, present, Backend.Raised(message)))))
  {
  }

  /**
   * An exception whose text is empty gives `{"error": ""}`, which the
   * client's truthiness test lets through: it is stored as the result, with
   * no risk label, no recommendations, and a theme lookup that, as
   * written, fails.
   */
  lemma EmptyExceptionTextShownAsResult(columns: seq<string>, present: set<string>)
    requires forall c :: c in columns ==> c in present
    ensures var reply := Decode(Backend.Predict(columns, present, Backend.Raised("")));
      && Backend.Predict(columns, present, Backend.Raised("")).status == 500
      && Succeeded(Received(reply))
      && ResultCard.LabelOf(reply.risk) == ResultCard.Unrecognised
      && ResultCard.Present(reply).recommendations == []
      && ResultCard.ThemeAsWritten(ResultCard.LabelOf(reply.risk)) == None
  {
  }

  /** The keys of the JSON object the form sends. */
  const KeysSent: set<string> := set k | k in PayloadKeys

  /** The form's payload has every column the service needs whenever those columns are among the form's eight keys. */
  lemma PayloadPassesKeyCheck(columns: seq<string>, inference: Backend.Inference)
    requires forall c :: c in columns ==> c in PayloadKeys
    ensures Backend.MissingKeys(columns, KeysSent) == []
    ensures Backend.Predict(columns, KeysSent, inference).status != 400
  {
  }
}
