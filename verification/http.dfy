/** The shapes that cross the HTTP boundaries of the pipeline: what a
    provider (Deepgram, Google Translate, OpenAI) can answer, and what one
    internal route answers to the orchestrator. */
module Http {
  import opened Base

  /** A status for which `fetch`'s `response.ok` is false. */
  type FailStatus = s: int | !(200 <= s < 300) witness 500

  /** The JSON body of a route's error reply, `{ error, details }`. */
  datatype ErrorBody = ErrorBody(error: Option<string>, details: Option<string>)

  /** What one call to an internal route yields to its caller: an `ok` reply
      carrying the field the caller reads, a non-`ok` reply with its JSON error
      body, or a call that raised (unreachable route, unparsable body). */
  datatype StageReply<+T> = Ok(value: T) | Err(status: FailStatus, body: ErrorBody) | Broken

  /** What a provider's `fetch` yields: an `ok` response already decoded, a
      non-`ok` response with its status and body text, or a rejection. */
  datatype ProviderOutcome<+T> = Answered(value: T) | Refused(status: FailStatus, text: string) | Unreachable

  /** A route's reply together with the provider query it sent, if any. */
  datatype Handled<+T, +Q> = Handled(reply: StageReply<T>, query: Option<Q>)

  /** The reply a route gives when it rejects its input itself. */
  function Reject<T>(status: FailStatus, error: string): (r: StageReply<T>)
    ensures r.Err? && r.status == status && r.body.error == Some(error)
  {
    Err(status, ErrorBody(Some(error), None))
  }
}
