/** The chat relay endpoint (`handler` in src/pages/api/mistral.ts): a chain of
    early returns over the method, the `message` field and the server-held API
    key, then one call to the upstream completion API whose outcome becomes
    the response. The network call is an input here: `Dispatch` says whether
    the handler answers at once or forwards (and what it forwards), and
    `Complete` turns whatever the upstream call produced into a response. */
module Relay {
  import opened Js

  const MethodNotAllowed := "Method Not Allowed"
  const MessageRequired := "Message is required"
  const KeyMissing := "API key not configured"
  const CallFailed := "Something went wrong while calling the AI service."
  const ProviderFallback := "AI error"

  const UpstreamUrl := "https://openrouter.ai/api/v1/chat/completions"
  const JsonContentType := "application/json"
  const Model := "mistralai/mistral-7b-instruct"
  const SystemPrompt := "You are SoftSell's helpful assistant. Answer questions about our software resale services clearly and concisely. format it as a ReactNode with <br/> tags if applicable"

  /** An inbound request: its HTTP method and the `message` field of its JSON
      body (`None` when absent). */
  datatype Request = Request(verb: string, message: Option<string>)

  datatype Role = System | User

  /** One entry of the `messages` list sent upstream. */
  datatype Turn = Turn(role: Role, content: string)

  /** The outbound chat-completion call: URL, HTTP method, headers and JSON
      body. */
  datatype CompletionRequest = CompletionRequest(
    url: string,
    verb: string,
    contentType: string,
    authorization: string,
    model: string,
    messages: seq<Turn>)

  /** The provider's `error` object, with its `message` (`None` when absent). */
  datatype ProviderError = ProviderError(message: Option<string>)

  /** The decoded upstream body, as far as anyone reads it: a truthy `error`
      field (`Some`) or none, and the first choice's message content when
      `choices[0].message` can be read. */
  datatype Completion = Completion(error: Option<ProviderError>, firstContent: Option<string>)

  /** What the `fetch` plus `res.json()` pair produced: a throw (network
      failure or a body that is not JSON) or a decoded body. */
  datatype UpstreamOutcome = Threw | Decoded(body: Completion)

  /** A response body: `{ error }`, or the upstream body passed through. */
  datatype Body = ErrorBody(error: string) | Passthrough(completion: Completion)

  datatype Response = Response(status: int, body: Body)

  /** What the handler does before any upstream call: answer at once, or
      forward a request upstream. */
  datatype Dispatched = Respond(response: Response) | Forward(request: CompletionRequest)

  /** The outbound request for a given key and message. */
  function Outbound(apiKey: string, message: string): CompletionRequest {
    CompletionRequest(
      UpstreamUrl,
      "POST",
      JsonContentType,
      "Bearer " + apiKey,
      Model,
      [Turn(System, SystemPrompt), Turn(User, message)])
  }

  /** The validation chain, in the source's order: method first, then the
      message, then the key. It forwards exactly when all three pass, and
      then POSTs JSON with the key as a bearer token and the message verbatim
      as the single user turn after the fixed system turn. */
  function Dispatch(req: Request, apiKey: Option<string>): (d: Dispatched)
    ensures req.verb != "POST" ==> d == Respond(Response(405, ErrorBody(MethodNotAllowed)))
    ensures req.verb == "POST" && !Truthy(req.message) ==>
      d == Respond(Response(400, ErrorBody(MessageRequired)))
    ensures req.verb == "POST" && Truthy(req.message) && !Truthy(apiKey) ==>
      d == Respond(Response(500, ErrorBody(KeyMissing)))
    ensures d.Forward? <==> req.verb == "POST" && Truthy(req.message) && Truthy(apiKey)
    ensures d.Forward? ==>
      && d.request.url == UpstreamUrl
      && d.request.verb == "POST"
      && d.request.contentType == JsonContentType
      && d.request.authorization == "Bearer " + apiKey.value
      && d.request.model == Model
      && |d.request.messages| == 2
      && d.request.messages[0] == Turn(System, SystemPrompt)
      && d.request.messages[1] == Turn(User, req.message.value)
  {
    if req.verb != "POST" then
      Respond(Response(405, ErrorBody(MethodNotAllowed)))
    else if !Truthy(req.message) then
      Respond(Response(400, ErrorBody(MessageRequired)))
    else if !Truthy(apiKey) then
      Respond(Response(500, ErrorBody(KeyMissing)))
    else
      Forward(Outbound(apiKey.value, req.message.value))
  }

  /** The upstream outcome as a response: any throw becomes the fixed generic
      error (never the exception's text), a provider error becomes 500 with
      the provider's message or "AI error", and any other body is passed
      through unchanged with 200. */
  function Complete(outcome: UpstreamOutcome): (r: Response)
    ensures outcome.Threw? ==> r == Response(500, ErrorBody(CallFailed))
    ensures outcome.Decoded? && outcome.body.error.Some? ==>
      var m := outcome.body.error.value.message;
      r == Response(500, ErrorBody(if Truthy(m) then m.value else ProviderFallback))
    ensures outcome.Decoded? && outcome.body.error.None? ==>
      r == Response(200, Passthrough(outcome.body))
  {
    match outcome
    case Threw => Response(500, ErrorBody(CallFailed))
    case Decoded(body) =>
      if body.error.Some? then
        var m := body.error.value.message;
        Response(500, ErrorBody(if Truthy(m) then m.value else ProviderFallback))
      else
        Response(200, Passthrough(body))
  }

  /** The whole handler, given what the upstream call would produce if it
      were made. Every status is one of 200, 400, 405 and 500; 200 comes with
      the upstream body (which carries no error) and every other status with a
      non-empty `{ error }` message. */
  function Handle(req: Request, apiKey: Option<string>, upstream: UpstreamOutcome): (r: Response)
    ensures r.status in {200, 400, 405, 500}
    ensures r.status == 200 <==> r.body.Passthrough?
    ensures r.body.ErrorBody? ==> r.body.error != ""
    ensures r.body.Passthrough? ==>
      upstream == Decoded(r.body.completion) && r.body.completion.error.None?
  {
    match Dispatch(req, apiKey)
    case Respond(response) => response
    case Forward(_) => Complete(upstream)
  }

  /** When the handler answers before the upstream call, the upstream outcome
      cannot influence the response: no call is made. */
  lemma EarlyAnswerIgnoresUpstream(req: Request, apiKey: Option<string>, u1: UpstreamOutcome, u2: UpstreamOutcome)
    requires Dispatch(req, apiKey).Respond?
    ensures Handle(req, apiKey, u1) == Handle(req, apiKey, u2)
    ensures Handle(req, apiKey, u1).status != 200
  {
  }

  /** The message check does not trim: a message made only of white space is
      accepted and forwarded verbatim. */
  lemma BlankMessageIsForwarded(message: string, key: string)
    requires message != "" && IsBlank(message) && key != ""
    ensures Dispatch(Request("POST", Some(message)), Some(key)) == Forward(Outbound(key, message))
  {
  }
}
