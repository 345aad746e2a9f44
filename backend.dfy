/**
 * The prediction service's `/predict` handler: the check that every model
 * column is present in the request, the mapping from probability to risk
 * tier and advice, and the three kinds of response (200, 400, 500). The
 * trained model is not modelled: its answer, or the exception it raised,
 * is an input.
 */
module Backend {

  datatype Tier = Low | Medium | High

  /** The order Low < Medium < High. */
  function Rank(t: Tier): nat {
    match t
    case Low => 0
    case Medium => 1
    case High => 2
  }

  /** The label written into the response's `risk` key. */
  function TierName(t: Tier): string {
    match t
    case Low => "Low"
    case Medium => "Medium"
    case High => "High"
  }

  const MediumFrom: real := 0.40
  const HighFrom: real := 0.65

  function TierOf(probability: real): Tier {
    if probability < MediumFrom then Low
    else if probability < HighFrom then Medium
    else High
  }

  /** Each tier covers one half-open band of probabilities, and the bands meet at 0.40 and 0.65. */
  lemma TierBands(p: real)
    ensures TierOf(p) == Low <==> p < 0.40
    ensures TierOf(p) == Medium <==> 0.40 <= p < 0.65
    ensures TierOf(p) == High <==> 0.65 <= p
  {
  }

  /** A probability exactly on a threshold belongs to the higher tier. */
  lemma TierBoundaries()
    ensures TierOf(0.39) == Low && TierOf(0.40) == Medium
    ensures TierOf(0.64) == Medium && TierOf(0.65) == High
  {
  }

  /** A higher probability never gives a lower tier. */
  lemma TierMonotone(p: real, q: real)
    requires p <= q
    ensures Rank(TierOf(p)) <= Rank(TierOf(q))
  {
  }

  /** The one-line advice the service sends with each tier. */
  function Advice(t: Tier): string {
    match t
    case Low => "Maintain healthy diet and exercise daily."
    case Medium => "Consult a doctor for a routine checkup."
    case High => "Seek medical evaluation to discuss these symptoms."
  }

  /** Each tier has its own advice and its own label. */
  lemma AdviceAndNamePerTier(s: Tier, t: Tier)
    ensures Advice(s) == Advice(t) <==> s == t
    ensures TierName(s) == TierName(t) <==> s == t
  {
  }

  /**
   * The model columns that are not keys of the request body, kept in column
   * order: exactly the absent columns, each as often as it is listed.
   */
  function MissingKeys(columns: seq<string>, present: set<string>): (missing: seq<string>)
    ensures |missing| <= |columns|
    ensures forall k :: k in missing <==> k in columns && k !in present
  {
    if columns == [] then []
    else (if columns[0] in present then [] else [columns[0]]) + MissingKeys(columns[1..], present)
  }

  /** Missing keys of a concatenation: the first part's, then the second part's, so column order is kept. */
  lemma {:induction false} MissingKeysConcat(a: seq<string>, b: seq<string>, present: set<string>)
    ensures MissingKeys(a + b, present) == MissingKeys(a, present) + MissingKeys(b, present)
  {
    if a != [] {
      assert (a + b)[1..] == a[1..] + b;
      MissingKeysConcat(a[1..], b, present);
    } else {
      assert a + b == b;
    }
  }

  /** The items of a Python list of strings as `repr` shows them, separated by ", ". */
  function QuotedItems(items: seq<string>): string {
    if items == [] then ""
    else if |items| == 1 then "'" + items[0] + "'"
    else "'" + items[0] + "', " + QuotedItems(items[1..])
  }

  /** The message of the 400 response, which lists the missing columns as a Python list. */
  function MissingMessage(missing: seq<string>): string {
    "Missing data for features: [" + QuotedItems(missing) + "]"
  }

  /** What the trained model did with the request: an answer, or an exception with its text. */
  datatype Inference = Inferred(prediction: int, probability: real) | Raised(message: string)

  datatype Body =
    | Prediction(prediction: int, risk: string, probability: real, recommendation: string)
    | Error(error: string)

  datatype Response = Response(status: nat, body: Body)

  /** The keys of the JSON object a body is sent as. */
  function Keys(body: Body): set<string> {
    match body
    case Prediction(_, _, _, _) => {"prediction", "risk", "probability", "recommendation"}
    case Error(_) => {"error"}
  }

  /**
   * The `/predict` handler for a request whose body has the keys `present`.
   * A request lacking a model column gets 400 and reaches no model; an
   * exception gets 500 with its text; otherwise the answer comes back with
   * its tier and that tier's advice.
   */
  function Predict(columns: seq<string>, present: set<string>, inference: Inference): (r: Response)
    ensures r.status == 400 <==> exists c :: c in columns && c !in present
    ensures r.status == 400 ==> r.body == Error(MissingMessage(MissingKeys(columns, present)))
    ensures r.status == 500 <==> (forall c :: c in columns ==> c in present) && inference.Raised?
    ensures r.status == 500 ==> r.body == Error(inference.message)
    ensures r.status == 200 <==> (forall c :: c in columns ==> c in present) && inference.Inferred?
    ensures r.status == 200 ==> Keys(r.body) == {"prediction", "risk", "probability", "recommendation"}
    ensures r.status == 200 ==>
      && r.body.prediction == inference.prediction
      && r.body.probability == inference.probability
      && r.body.risk == TierName(TierOf(inference.probability))
      && r.body.recommendation == Advice(TierOf(inference.probability))
  {
    var missing := MissingKeys(columns, present);
    if missing != [] then
      assert missing[0] in missing;
      Response(400, Error(MissingMessage(missing)))
    else
      match inference
      case Raised(message) => Response(500, Error(message))
      case Inferred(prediction, probability) =>
        var tier := TierOf(probability);
        Response(200, Prediction(prediction, TierName(tier), probability, Advice(tier)))
  }
}
