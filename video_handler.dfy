/**
 * The `generate-video` handler: validate the script, check configuration,
 * plan scenes, request one image per scene, keep the imaged scenes, request
 * one narration audio for them, and assemble scenes, base64 audio and
 * durations. A thrown error becomes `{error}` with a status chosen from its
 * message. The three upstream services are parameters of the handler.
 */
module VideoHandler {
  import opened Wrappers
  import opened Strings
  import opened Base64
  import opened ScenePlanner
  import opened SceneImages
  import opened Narration

  /** An upstream request, as the handler sends it. */
  datatype Request =
    | PlanRequest(script: string)
    | ImageRequest(index: nat, content: string)
    | SpeechRequest(text: string)

  /** The speech service's reply: not ok, or the audio bytes. */
  datatype SpeechReply = SpeechRejected | SpeechAudio(bytes: seq<bv8>)

  /**
   * The collaborators: the scene planner, the JSON parser applied to its
   * cleaned reply, the image generator (by scene index and request content)
   * and the speech synthesiser.
   */
  datatype Services = Services(
    planner: string -> PlannerReply,
    parse: string -> ParseOutcome,
    image: (nat, string) -> Option<string>,
    speech: string -> SpeechReply)

  /** The two API keys read from the environment. */
  datatype Keys = Keys(gateway: Option<string>, speech: Option<string>)

  /** The body of a successful reply. */
  datatype VideoResult = VideoResult(scenes: seq<TimedScene>, audioBase64: string, audioType: string, totalDuration: real)

  /** The reply: the result, or `{error}` with its HTTP status. */
  datatype VideoResponse = Video(result: VideoResult) | Failed(status: int, error: string)

  const ScriptRequired := "Script is required"
  const GatewayKeyMissing := "LOVABLE_API_KEY is not configured"
  const SpeechKeyMissing := "ELEVENLABS_API_KEY is not configured"
  const NoImages := "Failed to generate any images"
  const AudioFailed := "Failed to generate audio narration"
  const AudioType := "audio/mpeg"

  /** `!script || typeof script !== 'string'`: only a non-empty string passes; it is not trimmed. */
  function ValidateScript(script: Option<string>): (r: Result<string, string>)
    ensures r.Success? <==> script.Some? && script.value != ""
    ensures r.Success? ==> r.value == script.value
    ensures r.Failure? ==> r.error == ScriptRequired
  {
    if script.Some? && script.value != "" then Success(script.value) else Failure(ScriptRequired)
  }

  /** The script is usable and both keys are configured, so the planner will be asked. */
  predicate Ready(script: Option<string>, keys: Keys) {
    ValidateScript(script).Success? && Truthy(keys.gateway) && Truthy(keys.speech)
  }

  /** The scene plan obtained for `script`. */
  function Planned(script: string, services: Services): Result<seq<Plan>, string> {
    PlanScenes(script, services.planner(script), services.parse)
  }

  /** The scenes of `plans` that got their image. */
  function Kept(plans: seq<Plan>, services: Services): seq<Scene> {
    KeepImaged(plans, ImageOutcomes(plans, services.image))
  }

  /**
   * `result` is the reply assembled from the kept scenes, their joined
   * narration and its audio: the audio in base64, 400 ms per spoken word in
   * total, shared evenly by the scenes, which keep their narration and URL.
   */
  predicate Assembled(result: VideoResult, kept: seq<Scene>, narration: string, audio: seq<bv8>) {
    && result.audioBase64 == Encode(audio)
    && result.audioType == AudioType
    && result.totalDuration == (400 * WordCount(narration)) as real
    && |result.scenes| == |kept| > 0
    && forall k :: 0 <= k < |kept| ==>
         result.scenes[k] == TimedScene(kept[k].narration, kept[k].imageUrl, result.totalDuration / |kept| as real)
  }

  /** The status for a thrown message: "Rate limit" wins over "Payment"; all else is 500. */
  function StatusFor(message: string): (status: int)
    ensures status == 429 <==> Contains(message, "Rate limit")
    ensures status == 402 <==> !Contains(message, "Rate limit") && Contains(message, "Payment")
    ensures status == 500 <==> !Contains(message, "Rate limit") && !Contains(message, "Payment")
  {
    if Contains(message, "Rate limit") then 429
    else if Contains(message, "Payment") then 402
    else 500
  }

  /** The `catch` block: a thrown message becomes `{error}` with the status it selects. */
  function Respond(outcome: Result<VideoResult, string>): (r: VideoResponse)
    ensures r.Video? <==> outcome.Success?
    ensures outcome.Success? ==> r.result == outcome.value
    ensures outcome.Failure? ==> r.error == outcome.error && r.status == StatusFor(outcome.error)
  {
    match outcome
    case Success(result) => Video(result)
    case Failure(message) => Failed(StatusFor(message), message)
  }

  /** A message lacking the 'R' of "Rate limit" and the `k`-th letter of "Payment" maps to 500. */
  lemma MessageIs500(m: string, k: nat)
    requires 'R' !in m && k < 7 && "Payment"[k] !in m
    ensures StatusFor(m) == 500
  {
    MissingChar(m, "Rate limit", 0);
    MissingChar(m, "Payment", k);
  }

  /** A missing or non-string script is answered with 500, not 400. */
  lemma ScriptRequiredIs500()
    ensures StatusFor(ScriptRequired) == 500
  {
    MessageIs500(ScriptRequired, 0);
  }

  lemma GatewayKeyMissingIs500()
    ensures StatusFor(GatewayKeyMissing) == 500
  {
    MessageIs500(GatewayKeyMissing, 2);
  }

  lemma SpeechKeyMissingIs500()
    ensures StatusFor(SpeechKeyMissing) == 500
  {
    MessageIs500(SpeechKeyMissing, 2);
  }

  lemma ScenesFailedIs500()
    ensures StatusFor(ScenesFailed) == 500
  {
    MessageIs500(ScenesFailed, 0);
  }

  lemma NoImagesIs500()
    ensures StatusFor(NoImages) == 500
  {
    MessageIs500(NoImages, 0);
  }

  lemma AudioFailedIs500()
    ensures StatusFor(AudioFailed) == 500
  {
    MessageIs500(AudioFailed, 0);
  }

  /** The image requests for the planned scenes, one per plan, by index. */
  function ImageRequests(plans: seq<Plan>): (r: seq<Request>)
    ensures |r| == |plans|
    ensures forall i :: 0 <= i < |plans| ==> r[i] == ImageRequest(i, ImageRequestFor(plans[i].imagePrompt))
  {
    seq(|plans|, i requires 0 <= i < |plans| => ImageRequest(i, ImageRequestFor(plans[i].imagePrompt)))
  }

  /** The reply body for the kept scenes, their joined narration and its audio. */
  function Assemble(kept: seq<Scene>, narration: string, audio: seq<bv8>): (result: VideoResult)
    requires kept != []
    ensures Assembled(result, kept, narration, audio)
  {
    var total := TotalDurationMs(WordCount(narration));
    VideoResult(WithDuration(kept, PerSceneMs(total, |kept|)), Encode(audio), AudioType, total)
  }

  /**
   * An assembled reply is self-consistent: its audio text decodes back to the
   * audio bytes, and the scene durations add up to the total duration.
   */
  lemma AssembledConsistent(result: VideoResult, kept: seq<Scene>, narration: string, audio: seq<bv8>)
    requires Assembled(result, kept, narration, audio)
    ensures Decode(result.audioBase64) == Some(audio)
    ensures SumDurations(result.scenes) == result.totalDuration
  {
    DecodeEncode(audio);
    EvenShares(result.scenes, result.totalDuration);
  }

  /**
   * The `try` block of the handler: the result, or the message it throws.
   * `sent` lists the upstream requests in the order they are issued; the
   * reply is `Respond(outcome)`.
   */
  method RunPipeline(script: Option<string>, keys: Keys, services: Services)
    returns (outcome: Result<VideoResult, string>, sent: seq<Request>)
    // Input validation comes first and sends nothing.
    ensures ValidateScript(script).Failure? ==> outcome == Failure(ScriptRequired) && sent == []
    // Missing configuration is reported before any request, the gateway key first.
    ensures ValidateScript(script).Success? && !Truthy(keys.gateway) ==>
      outcome == Failure(GatewayKeyMissing) && sent == []
    ensures ValidateScript(script).Success? && Truthy(keys.gateway) && !Truthy(keys.speech) ==>
      outcome == Failure(SpeechKeyMissing) && sent == []
    // Once configured, the script goes through the generation steps.
    ensures Ready(script, keys) ==> Generated(script.value, services, outcome, sent)
  {
    var checked := ValidateScript(script);
    if checked.Failure? {
      return Failure(checked.error), [];
    }
    if !Truthy(keys.gateway) {
      return Failure(GatewayKeyMissing), [];
    }
    if !Truthy(keys.speech) {
      return Failure(SpeechKeyMissing), [];
    }
    outcome, sent := Generate(checked.value, services);
  }

  /**
   * What the generation steps make of `script`: planning failures stop after
   * the planning request; without a surviving image no speech request is
   * made; otherwise one speech request for the joined narration, whose audio
   * completes the result.
   */
  predicate Generated(script: string, services: Services, outcome: Result<VideoResult, string>, sent: seq<Request>) {
    var planned := Planned(script, services);
    if planned.Failure? then
      outcome == Failure(planned.error) && sent == [PlanRequest(script)]
    else
      var kept := Kept(planned.value, services);
      var narration := JoinNarration(kept);
      if kept == [] then
        outcome == Failure(NoImages) && sent == [PlanRequest(script)] + ImageRequests(planned.value)
      else
        && sent == [PlanRequest(script)] + ImageRequests(planned.value) + [SpeechRequest(narration)]
        && (services.speech(narration).SpeechRejected? ==> outcome == Failure(AudioFailed))
        && (services.speech(narration).SpeechAudio? ==>
              outcome.Success? && Assembled(outcome.value, kept, narration, services.speech(narration).bytes))
  }

  /** Steps 1 to 3 of the handler, for a validated script with both keys configured. */
  method Generate(script: string, services: Services) returns (outcome: Result<VideoResult, string>, sent: seq<Request>)
    ensures Generated(script, services, outcome, sent)
  {
    sent := [PlanRequest(script)];
    var planned := PlanScenes(script, services.planner(script), services.parse);
    if planned.Failure? {
      return Failure(planned.error), sent;
    }
    var plans := planned.value;

    sent := sent + ImageRequests(plans);
    var outcomes := ImageOutcomes(plans, services.image);
    var kept := KeepImaged(plans, outcomes);
    if |kept| == 0 {
      return Failure(NoImages), sent;
    }

    var narration := JoinNarration(kept);
    sent := sent + [SpeechRequest(narration)];
    var audio := services.speech(narration);
    if audio.SpeechRejected? {
      return Failure(AudioFailed), sent;
    }
    outcome := Success(Assemble(kept, narration, audio.bytes));
  }
}
