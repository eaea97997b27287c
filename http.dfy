/**
 * What a `fetch` call delivers to the pages. The network is not modelled: each request's
 * outcome is an input to the method that awaits it.
 */
module Http {
  import opened JsonValues

  /** The result of awaiting `response.json()`: a parsed value, or the rejection of a body that is not JSON. */
  datatype Body = Parsed(json: Json) | Unparsable(reason: string)

  /** `fetch` either rejects (network failure, with the error's message) or yields a response. */
  datatype HttpOutcome =
    | NetworkError(reason: string)
    | Response(status: nat, body: Body)

  /** `response.ok`: the status lies in 200..299. */
  predicate IsOk(status: nat) {
    200 <= status <= 299
  }
}
