/**
 * The outcome of one awaited `fetch` to an external service, as the worker
 * sees it. The network itself is not modelled: each call is given its outcome.
 */
module Http {

  /**
   * `Response` is a reply that arrived: its status, its text (read by the
   * worker only on the error path) and its parsed JSON body (read only on the
   * success path). `Thrown` is a call that rejected: the network failed or the
   * body could not be read as JSON; it carries the error's message.
   */
  datatype Reply<B> = Response(status: nat, text: string, body: B) | Thrown(message: string)

  /** `response.ok`: the status is in the range 200-299. */
  predicate IsOk(status: nat) {
    200 <= status <= 299
  }
}
