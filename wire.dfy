/**
 * What travels between the form and the prediction service: the request
 * payload, the decoded reply object, and the three ways a request can end.
 */
module Wire {
  import opened Wrappers
  import opened JsNumber

  /**
   * The JSON body the form posts: eight numeric features. A `None` feature
   * is NaN, which `JSON.stringify` writes as `null` under the same key.
   */
  datatype Payload = Payload(
    age: Num, sex: int, cp: Num, trestbps: Num, chol: Num, fbs: int, thalach: Num, exang: Num)

  /** The keys every payload carries, in the order the form writes them. */
  const PayloadKeys: seq<string> := ["age", "sex", "cp", "trestbps", "chol", "fbs", "thalach", "exang"]

  /**
   * The parts of the decoded reply object the client reads: `data.error`,
   * `data.risk` and `data.probability` (`None` is a key that is absent).
   */
  datatype Reply = Reply(error: Option<string>, risk: Option<string>, probability: Option<real>)

  /** How a request ends: a decoded reply object, or an exception (server unreachable, body not JSON). */
  datatype Outcome = Received(reply: Reply) | Thrown

  /** `if (data.error)`: only a present, non-empty error string is truthy. */
  predicate CarriesError(reply: Reply) {
    reply.error.Some? && reply.error.value != ""
  }

  /** The request ends with a result to show: a reply whose error field is not truthy. */
  predicate Succeeded(outcome: Outcome) {
    outcome.Received? && !CarriesError(outcome.reply)
  }
}
