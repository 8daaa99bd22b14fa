/**
 * The adapter request/response shapes the middleware passes through, and the
 * wrapped executor it calls.
 */
module Adapter {

  /** An inbound adapter request: a job run id and its `data` parameters. */
  datatype AdapterRequest = AdapterRequest(id: string, data: map<string, string>)

  /** A successful adapter response. */
  datatype AdapterResponse = AdapterResponse(jobRunID: string, statusCode: int, data: map<string, string>)

  /** What an awaited `execute` call does: it returns a response or it throws. */
  datatype Outcome = Returned(response: AdapterResponse) | Threw(error: string)

  /**
   * The replay closure stored in a warmer action: `rawExecute` wrapped with the
   * warmer's own middleware list. It is carried as a token and never called here.
   */
  datatype ExecuteFn = WithMiddleware(rawExecute: string, middleware: seq<string>)

  /**
   * The wrapped `execute` handed to the middleware. What it answers is some fixed
   * function of the request (`respond`); `calls` records every request it was given,
   * in order, so that callers can state how many times it ran.
   */
  class Executor {
    const respond: AdapterRequest -> Outcome
    var calls: seq<AdapterRequest>

    constructor (respond: AdapterRequest -> Outcome)
      ensures this.respond == respond && calls == []
    {
      this.respond := respond;
      calls := [];
    }

    method Execute(input: AdapterRequest) returns (o: Outcome)
      modifies this
      ensures calls == old(calls) + [input]
      ensures o == respond(input)
    {
      calls := calls + [input];
      o := respond(input);
    }
  }
}
