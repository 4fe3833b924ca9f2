/**
 * The `generate-content` handler: after the API key check it dispatches on
 * the requested content type, fills in that type's prompt template from the
 * request parameters, makes one gateway request, and maps the gateway's
 * answer to the reply. A thrown error is answered with status 500.
 */
module ContentHandler {
  import opened Wrappers
  import opened Strings

  /** The one request made to the AI gateway: an image generation or a chat completion. */
  datatype GatewayRequest =
    | ImageGeneration(prompt: string)
    | ChatCompletion(system: string, user: string)

  /**
   * The gateway's reply: not ok with its HTTP status, or ok with the first
   * choice's message content and the URL of its first image (either may be missing).
   */
  datatype GatewayReply =
    | Rejected(status: int)
    | Answered(content: Option<string>, imageUrl: Option<string>)

  /**
   * The handler's reply: `{content}` (the field is left out when the content
   * is missing), `{content: url, isImage: true}`, or `{error}` with its status.
   */
  datatype ContentResponse =
    | Generated(content: Option<string>)
    | GeneratedImage(url: string)
    | Error(status: int, message: string)

  /** The gateway request made, if any, and the reply. */
  datatype Exchange = Exchange(sent: Option<GatewayRequest>, response: ContentResponse)

  const KeyMissing := "LOVABLE_API_KEY is not configured"
  const InvalidType := "Invalid content type"
  const RateLimited := "Rate limit exceeded. Please try again later."
  const PaymentRequired := "Payment required. Please add credits to your workspace."
  const GatewayFailed := "AI gateway error"
  const NoImage := "No image generated"

  const TextSystemPrompt :=
    "You are a professional content writer specializing in marketing copy and engaging text. \n"
    + "      Generate compelling, well-structured text that matches the specified tone and audience.\n"
    + "      Keep the output between 150-200 words unless otherwise specified.\n"
    + "      Focus on clarity, impact, and engagement."

  const CodeSystemPrompt :=
    "You are an expert programmer who writes clean, functional, well-documented code.\n"
    + "      Generate concise code snippets that perform the specified task correctly.\n"
    + "      Include helpful comments explaining key parts of the code.\n"
    + "      Follow best practices for the specified programming language."

  /** The parameters each template reads, in the order they are substituted. */
  const TextKeys: seq<string> := ["topic", "tone", "audience", "goal"]
  const ImageKeys: seq<string> := ["style", "subject", "lighting", "composition"]
  const CodeKeys: seq<string> := ["task", "language", "context"]

  /** The literal pieces of the three user prompt templates. */
  const TextParts: seq<string> := [
    "Create marketing text with the following specifications:\n      Topic: ",
    "\n      Tone: ",
    "\n      Target Audience: ",
    "\n      Goal: ",
    "\n      \n      Generate a compelling paragraph that achieves the goal while maintaining the specified tone."]
  const ImageParts: seq<string> := ["Create a ", " image of ", ". Lighting: ", ". Composition: ", "."]
  const CodeParts: seq<string> := [
    "Create a code snippet with these specifications:\n      Task: ",
    "\n      Language: ",
    "\n      Context: ",
    "\n      \n      Generate clean, functional code that accomplishes the task. Include brief inline comments for clarity.\n"
    + "      Keep the code concise but complete enough to be immediately useful."]

  /** The three content types the handler knows. */
  predicate KnownKind(kind: string) {
    kind == "text" || kind == "image" || kind == "code"
  }

  /** `${params.key}`: the parameter's text, or "undefined" when it is absent. */
  function Param(params: map<string, string>, key: string): (v: string)
    ensures key in params ==> v == params[key]
    ensures key !in params ==> v == "undefined"
  {
    if key in params then params[key] else "undefined"
  }

  /** The parameter texts for `keys`, in order. */
  function Values(params: map<string, string>, keys: seq<string>): (vs: seq<string>)
    ensures |vs| == |keys|
    ensures forall i :: 0 <= i < |keys| ==> vs[i] == Param(params, keys[i])
  {
    seq(|keys|, i requires 0 <= i < |keys| => Param(params, keys[i]))
  }

  /** The parameters the template of `kind` reads. */
  function KeysFor(kind: string): (keys: seq<string>)
    ensures |keys| == if kind == "text" || kind == "image" then 4 else 3
    ensures forall i, j :: 0 <= i < j < |keys| ==> keys[i] != keys[j]
  {
    if kind == "text" then TextKeys else if kind == "image" then ImageKeys else CodeKeys
  }

  /** The literal pieces of the user prompt template of `kind`. */
  function PartsFor(kind: string): (parts: seq<string>)
    ensures |parts| == |KeysFor(kind)| + 1
  {
    if kind == "text" then TextParts else if kind == "image" then ImageParts else CodeParts
  }

  /**
   * The user prompt of `kind` filled in from `params`: it opens with the
   * template's first literal piece and carries every parameter the template reads.
   */
  function UserPrompt(kind: string, params: map<string, string>): (prompt: string)
    ensures PartsFor(kind)[0] <= prompt
    ensures forall k :: 0 <= k < |KeysFor(kind)| ==> Contains(prompt, Param(params, KeysFor(kind)[k]))
  {
    InterpolateContains(PartsFor(kind), Values(params, KeysFor(kind)));
    Interpolate(PartsFor(kind), Values(params, KeysFor(kind)))
  }

  /** The image prompt spelled out: the style, subject, lighting and composition in their places. */
  lemma ImagePromptSpelledOut(params: map<string, string>)
    ensures UserPrompt("image", params)
      == "Create a " + (Param(params, "style") + (" image of " + (Param(params, "subject")
         + (". Lighting: " + (Param(params, "lighting") + (". Composition: " + (Param(params, "composition") + ".")))))))
  {
    InterpolateFour(ImageParts, Values(params, ImageKeys));
  }

  /**
   * The request for a content type: an image generation for "image", a chat
   * completion with the type's system prompt for "text" and "code", and none
   * for any other type.
   */
  function RequestFor(kind: string, params: map<string, string>): (r: Option<GatewayRequest>)
    ensures r.Some? <==> KnownKind(kind)
    ensures r.Some? ==> (r.value.ImageGeneration? <==> kind == "image")
    ensures r.Some? ==> PromptText(r.value) == UserPrompt(kind, params)
    ensures kind == "text" ==> r.value.system == TextSystemPrompt
    ensures kind == "code" ==> r.value.system == CodeSystemPrompt
  {
    if kind == "text" then Some(ChatCompletion(TextSystemPrompt, UserPrompt(kind, params)))
    else if kind == "image" then Some(ImageGeneration(UserPrompt(kind, params)))
    else if kind == "code" then Some(ChatCompletion(CodeSystemPrompt, UserPrompt(kind, params)))
    else None
  }

  /** The prompt built from the parameters: the image prompt or the chat's user message. */
  function PromptText(request: GatewayRequest): string {
    match request
    case ImageGeneration(prompt) => prompt
    case ChatCompletion(_, user) => user
  }

  /**
   * The reply for the gateway's answer: 429 and 402 are passed on with their
   * own messages, any other failure is a 500; an image request needs a URL
   * that is not empty, a chat request passes the content on.
   */
  function Respond(reply: GatewayReply, image: bool): (r: ContentResponse)
    ensures reply == Rejected(429) ==> r == Error(429, RateLimited)
    ensures reply == Rejected(402) ==> r == Error(402, PaymentRequired)
    ensures reply.Rejected? && reply.status != 429 && reply.status != 402 ==> r == Error(500, GatewayFailed)
    ensures r.GeneratedImage? <==> image && reply.Answered? && reply.imageUrl.Some? && reply.imageUrl.value != ""
    ensures r.GeneratedImage? ==> r.url == reply.imageUrl.value
    ensures r.Generated? <==> !image && reply.Answered?
    ensures r.Generated? ==> r.content == reply.content
    ensures image && reply.Answered? && !r.GeneratedImage? ==> r == Error(500, NoImage)
  {
    match reply
    case Rejected(status) =>
      if status == 429 then Error(429, RateLimited)
      else if status == 402 then Error(402, PaymentRequired)
      else Error(500, GatewayFailed)
    case Answered(content, imageUrl) =>
      if !image then Generated(content)
      else if imageUrl.Some? && imageUrl.value != "" then GeneratedImage(imageUrl.value)
      else Error(500, NoImage)
  }

  /** The handler: key check, dispatch on `kind`, one gateway request, reply. */
  function GenerateContent(kind: string, params: map<string, string>, apiKey: Option<string>,
                           gateway: GatewayRequest -> GatewayReply): (r: Exchange)
    // The key is checked before the type: without it nothing is sent.
    ensures !Truthy(apiKey) ==> r == Exchange(None, Error(500, KeyMissing))
    ensures Truthy(apiKey) && !KnownKind(kind) ==> r == Exchange(None, Error(500, InvalidType))
    // A request goes out exactly when the key is set and the type is known; it is the type's request.
    ensures r.sent.Some? <==> Truthy(apiKey) && KnownKind(kind)
    ensures r.sent.Some? ==> r.sent == RequestFor(kind, params) && r.response == Respond(gateway(r.sent.value), kind == "image")
    // Only an image request yields an image, and only a text or code request yields text.
    ensures r.response.GeneratedImage? ==> kind == "image"
    ensures r.response.Generated? ==> kind == "text" || kind == "code"
    // Errors carry 429 or 402 only when the gateway answered with that status; all others are 500.
    ensures r.response.Error? ==> r.response.status == 429 || r.response.status == 402 || r.response.status == 500
    ensures r.response.Error? && r.response.status != 500 ==>
      r.sent.Some? && gateway(r.sent.value) == Rejected(r.response.status)
  {
    if !Truthy(apiKey) then Exchange(None, Error(500, KeyMissing))
    else match RequestFor(kind, params)
      case None => Exchange(None, Error(500, InvalidType))
      case Some(request) => Exchange(Some(request), Respond(gateway(request), kind == "image"))
  }
}
