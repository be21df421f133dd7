/**
  The `ai-tour` edge function: answers CORS preflight, selects a system prompt by
  mode, forwards the conversation to the model gateway with streaming on, and turns
  the gateway's answer (or a thrown error) into the reply the browser sees. The
  network call itself is a parameter: `upstream` is what the gateway call produced.
 */
module Proxy {
  import opened Wrappers
  import opened Messages

  const TutorPrompt: string :=
    "You are an expert AI English tutor. Your role is to:\n"
    + "- Help learners improve their English speaking, grammar, and vocabulary\n"
    + "- Correct mistakes gently and explain why they're wrong\n"
    + "- Provide example sentences and practice prompts\n"
    + "- Adapt difficulty based on the learner's level\n"
    + "- When a user speaks/writes with errors, show the corrected version, explain the rule, and give 2-3 practice sentences\n"
    + "- Use encouraging, supportive language\n"
    + "- Keep responses concise (2-4 paragraphs max)\n"
    + "- Use markdown formatting for clarity"

  const FeedbackPrompt: string :=
    "You are a pronunciation and grammar feedback engine. Analyze the user's text and provide:\n"
    + "1. **Corrected text** with changes highlighted\n"
    + "2. **Errors found** with explanations\n"
    + "3. **Score** out of 100 for grammar accuracy\n"
    + "4. **Tips** for improvement\n"
    + "Keep it structured and concise. Use markdown."

  /** The prompt table: exactly the two modes the function knows. */
  const SystemPrompts: map<string, string> := map["tutor" := TutorPrompt, "feedback" := FeedbackPrompt]

  const GatewayUrl := "https://ai.gateway.lovable.dev/v1/chat/completions"
  const GatewayModel := "google/gemini-3-flash-preview"

  const MissingKeyMessage := "LOVABLE_API_KEY is not configured"
  const RateLimitMessage := "Rate limit exceeded. Please try again in a moment."
  const UsageLimitMessage := "Usage limit reached. Please add credits."
  const ServiceErrorMessage := "AI service error"
  const UnknownErrorMessage := "Unknown error"

  /** A thrown JavaScript value: an `Error` carries a message, anything else does not. */
  datatype Thrown = ErrorValue(message: string) | OtherValue

  /**
    The parsed request body. `messages` is the `messages` field, or the error that
    spreading it throws when it is not iterable; `mode` is absent when not a string.
   */
  datatype ChatBody = ChatBody(messages: Result<seq<Message>, Thrown>, mode: Option<string>)

  /** An incoming request: its HTTP method and the outcome of parsing its body as JSON. */
  datatype Request = Request(verb: string, body: Result<ChatBody, Thrown>)

  /** The request sent to the gateway. */
  datatype UpstreamCall = UpstreamCall(url: string, authorization: string, model: string,
                                       messages: seq<Message>, stream: bool)

  /** What the gateway call produced: a response with its status and body stream, or a thrown error. */
  datatype Upstream = Responded(status: int, stream: string) | Threw(error: Thrown)

  datatype ContentType = NoContentType | Json | EventStream
  datatype ReplyBody = EmptyBody | Streamed(stream: string) | ErrorJson(error: string)

  /** A reply to the browser; every reply also carries the CORS headers. */
  datatype Reply = Reply(status: int, contentType: ContentType, body: ReplyBody)

  /** The reply, and the gateway call made on the way, if any. */
  datatype Outcome = Outcome(reply: Reply, call: Option<UpstreamCall>)

  const PreflightReply := Reply(200, NoContentType, EmptyBody)

  /** A `fetch` response is ok when its status is in the 2xx range. */
  predicate IsOk(status: int) {
    200 <= status <= 299
  }

  /** An environment variable read is usable when present and non-empty (JavaScript truthiness). */
  predicate KeyConfigured(key: Option<string>) {
    key.Some? && key.value != ""
  }

  /** The mode's own prompt, the tutor prompt for any other or a missing mode. */
  function SelectPrompt(mode: Option<string>): (p: string)
    ensures mode == Some("tutor") ==> p == TutorPrompt
    ensures mode == Some("feedback") ==> p == FeedbackPrompt
    ensures mode != Some("tutor") && mode != Some("feedback") ==> p == TutorPrompt
    ensures p == FeedbackPrompt <==> mode == Some("feedback")
  {
    if mode.Some? && mode.value in SystemPrompts && SystemPrompts[mode.value] != "" then
      SystemPrompts[mode.value]
    else
      SystemPrompts["tutor"]
  }

  /** The gateway conversation: one system message with the prompt, then the client's messages in order. */
  function Forwarded(prompt: string, messages: seq<Message>): (r: seq<Message>)
    ensures |r| == |messages| + 1
    ensures r[0] == Message(System, prompt)
    ensures forall i :: 0 <= i < |messages| ==> r[i + 1] == messages[i]
  {
    [Message(System, prompt)] + messages
  }

  /** The 500 reply for a caught exception: the error's message, or a generic text for a non-error value. */
  function ErrorReply(e: Thrown): (r: Reply)
    ensures r.status == 500 && r.contentType == Json
    ensures e.ErrorValue? ==> r.body == ErrorJson(e.message)
    ensures e.OtherValue? ==> r.body == ErrorJson(UnknownErrorMessage)
  {
    Reply(500, Json, ErrorJson(match e case ErrorValue(m) => m case OtherValue => UnknownErrorMessage))
  }

  /** The reply for the gateway's outcome. */
  function MapUpstream(u: Upstream): (r: Reply)
    ensures u.Responded? && IsOk(u.status) ==> r == Reply(200, EventStream, Streamed(u.stream))
    ensures u.Responded? && u.status == 429 ==> r == Reply(429, Json, ErrorJson(RateLimitMessage))
    ensures u.Responded? && u.status == 402 ==> r == Reply(402, Json, ErrorJson(UsageLimitMessage))
    ensures u.Responded? && !IsOk(u.status) && u.status != 429 && u.status != 402 ==>
      r == Reply(500, Json, ErrorJson(ServiceErrorMessage))
    ensures u.Threw? ==> r == ErrorReply(u.error)
  {
    match u
    case Threw(e) => ErrorReply(e)
    case Responded(status, stream) =>
      if IsOk(status) then Reply(200, EventStream, Streamed(stream))
      else if status == 429 then Reply(429, Json, ErrorJson(RateLimitMessage))
      else if status == 402 then Reply(402, Json, ErrorJson(UsageLimitMessage))
      else Reply(500, Json, ErrorJson(ServiceErrorMessage))
  }

  /** The whole handler; `key` is the configured API key and `upstream` what the gateway call yields. */
  function Handle(req: Request, key: Option<string>, upstream: Upstream): (o: Outcome)
    ensures req.verb == "OPTIONS" ==> o == Outcome(PreflightReply, None)
    ensures o.call.Some? <==>
      req.verb != "OPTIONS" && req.body.Success? && KeyConfigured(key) && req.body.value.messages.Success?
    ensures req.verb != "OPTIONS" && req.body.Failure? ==> o.reply == ErrorReply(req.body.error)
    ensures req.verb != "OPTIONS" && req.body.Success? && !KeyConfigured(key) ==>
      o.reply == ErrorReply(ErrorValue(MissingKeyMessage))
    ensures req.verb != "OPTIONS" && req.body.Success? && KeyConfigured(key) && req.body.value.messages.Failure? ==>
      o.reply == ErrorReply(req.body.value.messages.error)
    ensures o.call.Some? ==>
      && o.call.value.url == GatewayUrl
      && o.call.value.authorization == "Bearer " + key.value
      && o.call.value.model == GatewayModel
      && o.call.value.stream
      && o.call.value.messages == Forwarded(SelectPrompt(req.body.value.mode), req.body.value.messages.value)
      && o.reply == MapUpstream(upstream)
  {
    if req.verb == "OPTIONS" then
      Outcome(PreflightReply, None)
    else
      match req.body
      case Failure(e) => Outcome(ErrorReply(e), None)
      case Success(body) =>
        if !KeyConfigured(key) then
          Outcome(ErrorReply(ErrorValue(MissingKeyMessage)), None)
        else
          var prompt := SelectPrompt(body.mode);
          match body.messages
          case Failure(e) => Outcome(ErrorReply(e), None)
          case Success(messages) =>
            var call := UpstreamCall(GatewayUrl, "Bearer " + key.value, GatewayModel, Forwarded(prompt, messages), true);
            Outcome(MapUpstream(upstream), Some(call))
  }

  /** Every reply is a preflight, a stream or a JSON error with one of the three error statuses. */
  predicate WellShaped(r: Reply) {
    || r == PreflightReply
    || (r.status == 200 && r.contentType == EventStream && r.body.Streamed?)
    || (r.status in {402, 429, 500} && r.contentType == Json && r.body.ErrorJson?)
  }

  lemma HandleIsWellShaped(req: Request, key: Option<string>, upstream: Upstream)
    ensures WellShaped(Handle(req, key, upstream).reply)
  {
  }

  /** A preflight never looks at the body, the key or the gateway. */
  lemma PreflightIgnoresEverything(b1: Result<ChatBody, Thrown>, b2: Result<ChatBody, Thrown>,
                                   k1: Option<string>, k2: Option<string>, u1: Upstream, u2: Upstream)
    ensures Handle(Request("OPTIONS", b1), k1, u1) == Handle(Request("OPTIONS", b2), k2, u2)
  {
  }

  /** The gateway's answer matters only when the gateway is called. */
  lemma NoCallNoUpstreamInfluence(req: Request, key: Option<string>, u1: Upstream, u2: Upstream)
    requires Handle(req, key, u1).call.None?
    ensures Handle(req, key, u1) == Handle(req, key, u2)
  {
  }
}
