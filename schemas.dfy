/**
 * The shapes the consolidation engine reads and builds: a model's response and
 * its metadata, the code-review result, and the one extra model call it makes.
 */
module Schemas {
  import opened Wrappers
  import opened JsonValues

  /**
   * Response metadata. Token counts and latency may be absent (`None`);
   * `sourceModels` and `consolidationModel` are set only on a true
   * consolidation.
   */
  datatype Metadata = Metadata(
    model: string,
    promptTokens: Option<nat>,
    completionTokens: Option<nat>,
    totalTokens: Option<nat>,
    latencyMs: Option<nat>,
    artifacts: Option<seq<string>>,
    sourceModels: Option<seq<string>>,
    consolidationModel: Option<string>)

  /** One model's answer, as the parallel runner returns it. */
  datatype ModelResponse = ModelResponse(
    status: string,
    content: string,
    error: Option<string>,
    metadata: Metadata)

  /** A model response that also carries the reported issues (`list[dict] | None`). */
  datatype ReviewResult = ReviewResult(
    content: string,
    status: string,
    error: Option<string>,
    issues: Option<seq<Json>>,
    metadata: Metadata)

  /** One chat message of a model request. */
  datatype Message = Message(role: string, content: string)

  /** What is sent to the model runner: the model to use and the messages. */
  datatype CallRequest = CallRequest(model: string, messages: seq<Message>)

  /** What came back from the runner: a response, or an exception. */
  datatype CallOutcome = Raised | Returned(response: ModelResponse)

  /** `count or 0`. */
  function OrZero(count: Option<nat>): nat
  {
    match count
    case Some(n) => n
    case None => 0
  }

  /** The values that validate as the `issues_found: list[dict] | None` field. */
  predicate IsIssueList(v: Json)
  {
    v.JNull? || (v.JArr? && forall i :: 0 <= i < |v.items| ==> v.items[i].JObj?)
  }
}
