/**
 * agents/base.py: the OpenRouter client with its one-step model fallback,
 * and the two role agents built on it.
 *
 * The HTTP request is an `Endpoint`: given a model and a conversation it
 * yields the completion text of a well-formed reply, or `None` for every
 * failure the bare `except:` swallows (transport error, timeout, HTTP
 * error body, a JSON reply without `choices[0].message.content`).
 */
module Agents {
  import opened Wrappers

  /** One chat message, `{"role": ..., "content": ...}`. */
  datatype Message = Message(role: string, content: string)

  /** One POST to the completions endpoint: the model asked and the messages sent. */
  datatype Request = Request(model: string, messages: seq<Message>)

  /** What one `_call` did: the text it returned and the requests it sent, in order. */
  datatype Exchange = Exchange(reply: string, requests: seq<Request>)

  type Endpoint = (string, seq<Message>) -> Option<string>

  const FallbackModel: string := "deepseek/deepseek-v3"
  const ServiceUnavailable: string := "Service unavailable"
  const PlannerModel: string := "qwen/qwen-2.5-coder-32b-instruct:free"
  const VerifierModel: string := "google/gemma-2-9b-it:free"

  /**
   * `BaseAgent._call(model, messages)`. The first request goes to `model`;
   * if it fails and `model` is not the fallback model, exactly one more
   * request goes to the fallback model with the same messages; a failure of
   * the fallback model yields "Service unavailable". Every failure but the
   * last is followed by another attempt, and the reply is what the last
   * attempt produced.
   */
  function Call(endpoint: Endpoint, model: string, messages: seq<Message>): (ex: Exchange)
    ensures 1 <= |ex.requests| <= 2
    ensures ex.requests[0] == Request(model, messages)
    ensures forall i :: 0 <= i < |ex.requests| ==> ex.requests[i].messages == messages
    ensures |ex.requests| == 2 <==> endpoint(model, messages).None? && model != FallbackModel
    ensures |ex.requests| == 2 ==> ex.requests[1].model == FallbackModel
    ensures forall i :: 0 <= i < |ex.requests| - 1 ==> endpoint(ex.requests[i].model, messages).None?
    ensures ex.reply == endpoint(ex.requests[|ex.requests| - 1].model, messages).GetOr(ServiceUnavailable)
    decreases if model == FallbackModel then 0 else 1
  {
    match endpoint(model, messages)
    case Some(content) => Exchange(content, [Request(model, messages)])
    case None =>
      if model != FallbackModel then
        var next := Call(endpoint, FallbackModel, messages);
        Exchange(next.reply, [Request(model, messages)] + next.requests)
      else
        Exchange(ServiceUnavailable, [Request(model, messages)])
  }

  /** A first request that yields content is the only one, and its content is returned. */
  lemma CallFirstSuccess(endpoint: Endpoint, model: string, messages: seq<Message>)
    requires endpoint(model, messages).Some?
    ensures Call(endpoint, model, messages) ==
            Exchange(endpoint(model, messages).value, [Request(model, messages)])
  {
  }

  /** A failed first request to another model is retried once on the fallback model. */
  lemma CallFallsBack(endpoint: Endpoint, model: string, messages: seq<Message>)
    requires endpoint(model, messages).None? && model != FallbackModel
    ensures Call(endpoint, model, messages).requests ==
            [Request(model, messages), Request(FallbackModel, messages)]
    ensures Call(endpoint, model, messages).reply ==
            endpoint(FallbackModel, messages).GetOr(ServiceUnavailable)
  {
  }

  /** A failed request to the fallback model itself ends the call. */
  lemma CallFallbackFails(endpoint: Endpoint, messages: seq<Message>)
    requires endpoint(FallbackModel, messages).None?
    ensures Call(endpoint, FallbackModel, messages) ==
            Exchange(ServiceUnavailable, [Request(FallbackModel, messages)])
  {
  }

  // ---------------------------------------------------------------------
  // The same behaviour seen as a walk along a fixed chain of models

  /** The chain `_call` walks when it starts at `model`. */
  function FallbackChain(model: string): (chain: seq<string>)
    ensures chain != [] && chain[0] == model && chain[|chain| - 1] == FallbackModel
    ensures FallbackModel !in chain[..|chain| - 1]
    ensures |chain| == if model == FallbackModel then 1 else 2
  {
    if model == FallbackModel then [FallbackModel] else [model, FallbackModel]
  }

  /**
   * Reference walk: try each model of `chain` in order with the same
   * messages, stop at the first that yields content, and answer
   * "Service unavailable" when all fail.
   */
  function WalkChain(endpoint: Endpoint, chain: seq<string>, messages: seq<Message>): (ex: Exchange)
    ensures |ex.requests| <= |chain|
    ensures forall i :: 0 <= i < |ex.requests| ==> ex.requests[i] == Request(chain[i], messages)
    ensures forall i :: 0 <= i < |ex.requests| - 1 ==> endpoint(chain[i], messages).None?
    ensures (forall i :: 0 <= i < |chain| ==> endpoint(chain[i], messages).None?) ==>
              ex.reply == ServiceUnavailable && |ex.requests| == |chain|
    ensures ex.requests == [] <==> chain == []
    ensures ex.requests == [] ==> ex.reply == ServiceUnavailable
    ensures ex.requests != [] ==>
              ex.reply == endpoint(chain[|ex.requests| - 1], messages).GetOr(ServiceUnavailable)
    ensures |ex.requests| < |chain| ==> endpoint(chain[|ex.requests| - 1], messages).Some?
    decreases |chain|
  {
    if chain == [] then Exchange(ServiceUnavailable, [])
    else
      match endpoint(chain[0], messages)
      case Some(content) => Exchange(content, [Request(chain[0], messages)])
      case None =>
        var rest := WalkChain(endpoint, chain[1..], messages);
        Exchange(rest.reply, [Request(chain[0], messages)] + rest.requests)
  }

  /** `_call` is exactly the chain walk over `[model, fallback]` (or `[fallback]`). */
  lemma CallWalksChain(endpoint: Endpoint, model: string, messages: seq<Message>)
    ensures Call(endpoint, model, messages) == WalkChain(endpoint, FallbackChain(model), messages)
  {
    if model != FallbackModel {
      assert FallbackChain(model)[1..] == [FallbackModel];
    }
  }

  // ---------------------------------------------------------------------
  // Role agents

  /** The conversation `Planner.process` sends: the history, then the task as a user message. */
  function PlannerMessages(task: string, history: seq<Message>): (msgs: seq<Message>)
    ensures |msgs| == |history| + 1
    ensures msgs[..|history|] == history
    ensures msgs[|history|] == Message("user", task)
  {
    history + [Message("user", task)]
  }

  /**
   * `Planner.process(task, history)`: starts at the planner model, and every
   * request carries the history unchanged and in order, followed by the task.
   */
  function PlannerProcess(endpoint: Endpoint, task: string, history: seq<Message>): (ex: Exchange)
    ensures ex.requests != [] && ex.requests[0].model == PlannerModel
    ensures forall i :: 0 <= i < |ex.requests| ==>
              |ex.requests[i].messages| == |history| + 1 &&
              ex.requests[i].messages[..|history|] == history &&
              ex.requests[i].messages[|history|] == Message("user", task)
    ensures |ex.requests| == 2 <==> endpoint(PlannerModel, PlannerMessages(task, history)).None?
  {
    Call(endpoint, PlannerModel, PlannerMessages(task, history))
  }

  /**
   * `Verifier.process(text)`: starts at the verifier model, and every
   * request carries exactly one user message holding `text`.
   */
  function VerifierProcess(endpoint: Endpoint, text: string): (ex: Exchange)
    ensures ex.requests != [] && ex.requests[0].model == VerifierModel
    ensures forall i :: 0 <= i < |ex.requests| ==> ex.requests[i].messages == [Message("user", text)]
    ensures |ex.requests| == 2 <==> endpoint(VerifierModel, [Message("user", text)]).None?
  {
    Call(endpoint, VerifierModel, [Message("user", text)])
  }
}
