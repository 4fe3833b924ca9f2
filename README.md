# AI content studio: the two generation handlers

A Dafny model of the two serverless functions behind the content studio.

- `generate-video` turns a script into a narrated slide video. It validates the script and checks two API keys. It asks a language model to plan 3-5 scenes, falling back to one scene cut from the script when the reply is not JSON. It asks the image model for one picture per scene and keeps the scenes whose picture came back with a URL, in plan order. It asks the speech service to read the kept narrations, joined by spaces. It returns the scenes, the audio in base64 and a duration estimate of 150 words per minute, shared evenly by the scenes. A thrown error is answered with `{error}` and a status picked from its message.
- `generate-content` dispatches on a content type (`text`, `image`, `code`). It fills in that type's prompt template from the request parameters and makes one gateway request. It maps the gateway's answer to a reply: an image URL, generated text, or an error with status 429, 402 or 500.

The language model, the JSON parser applied to its reply, the image model, the speech service and the gateway are parameters of the model (total functions). The video handler records the requests it sends, in order, so "nothing is sent before validation" and "no speech request when no image survived" can be stated.

Modules:
- `Wrappers` holds `Option` and `Result`.
- `Strings` holds JavaScript truthiness of a possibly missing string, `trim`, `substring`, `includes`, `join(' ')`, `split(/\s+/)` and template literals on `seq<char>`.
- `Base64` is the encoder of section 4 of RFC 4648 (what `btoa` does to the audio bytes), with a decoder as its partner.
- `ScenePlanner`, `SceneImages` and `Narration` are the pure steps of the video handler.
- `VideoHandler` is the orchestrating method: `RunPipeline` is the `try` block, and `Respond` is the `catch` and the reply.
- `ContentHandler` is the content dispatcher, written as pure functions.

Where the code differs from what one might expect, the model follows the code:
- A missing or empty script fails with "Script is required" and status 500, not a client error status. A whitespace-only script is accepted, because it is not trimmed.
- The fallback plan is engaged by an error while cleaning or parsing the reply, not by a reply of the wrong shape. A reply without a `scenes` list fails with the runtime's error message instead. A reply whose `scenes` list is empty fails with "Failed to generate any images".
- The word count is `split(/\s+/).length`, so it counts one more than the number of whitespace runs. It is never 0, and leading or trailing whitespace adds a word.

## Model

| member | source | states |
|---|---|---|
| `Strings.Truthy` | supabase/functions/generate-video/index.ts:25-29 | a missing key and the empty string are falsy, every other string is truthy (the same test guards the key at line 17 of generate-content, and keeps a scene only when its image URL is truthy at line 139) |
| `Strings.Contains` | supabase/functions/generate-video/index.ts:201-202 | `includes` holds only for a substring no longer than the text, and always for a prefix of it |
| `Strings.Trim` | supabase/functions/generate-video/index.ts:83 | the result is an infix of the input, only whitespace is cut from either side, and the result neither starts nor ends with whitespace |
| `Strings.Prefix` | supabase/functions/generate-video/index.ts:91-92 | `substring(0, n)` is a prefix of the input of length `min(n, |s|)` |
| `Strings.Join` | supabase/functions/generate-video/index.ts:149 | the join starts with the first piece, has the pieces' total length plus one separator between each pair, and is "" for no pieces |
| `Strings.Split` | supabase/functions/generate-video/index.ts:179 | `split(/\s+/)` yields at least one piece, and no piece holds whitespace |
| `Strings.SplitCountsRuns` | supabase/functions/generate-video/index.ts:179 | the number of pieces is one more than the number of maximal whitespace runs |
| `Strings.SplitJoin` | supabase/functions/generate-video/index.ts:149 | splitting the space-join of non-empty, blank-free words gives back exactly those words |
| `Strings.JoinContains` | supabase/functions/generate-video/index.ts:149 | every piece of a space-join occurs in the joined text |
| `Strings.Interpolate` | supabase/functions/generate-content/index.ts:41 | a filled-in template literal starts with its first literal piece |
| `Strings.InterpolateContains` | supabase/functions/generate-content/index.ts:31-37 | every value substituted into a template literal occurs in the result |
| `Strings.InterpolateFour` | supabase/functions/generate-content/index.ts:41 | a template with four substitutions is its pieces and values concatenated alternately |
| `Base64.Symbol` | supabase/functions/generate-video/index.ts:174 | every 6-bit value maps to a character of the base64 alphabet, never to the pad `=` |
| `Base64.ValueOfSymbol` | supabase/functions/generate-video/index.ts:174 | the alphabet mapping is inverted by the symbol-to-value lookup |
| `Base64.Encode` | supabase/functions/generate-video/index.ts:174 | the encoding of non-empty bytes is at least one 4-character group |
| `Base64.EncodedLength` | supabase/functions/generate-video/index.ts:174 | the encoding has 4 characters for every started group of 3 bytes |
| `Base64.DecodeEncode` | supabase/functions/generate-video/index.ts:174 | decoding the encoding gives back exactly the audio bytes |
| `Base64.EncodeUsesAlphabet` | supabase/functions/generate-video/index.ts:174 | the encoding holds only alphabet characters and `=` |
| `Base64.EncodeInjective` | supabase/functions/generate-video/index.ts:174 | different byte strings never get the same encoding |
| `Base64.EncodeTestVectors` | supabase/functions/generate-video/index.ts:174 | the encoder reproduces the test vectors of section 10 of RFC 4648, from "" to "Zm9vYmFy" |
| `ScenePlanner.RemoveFences` | supabase/functions/generate-video/index.ts:83 | removing the fence markers never lengthens the reply |
| `ScenePlanner.CleanReply` | supabase/functions/generate-video/index.ts:83 | the text handed to the parser is never longer than the reply and has no blank ends |
| `ScenePlanner.RemoveFencesKeeps` | supabase/functions/generate-video/index.ts:83 | text without backticks passes through fence removal unchanged |
| `ScenePlanner.CleanUnfenced` | supabase/functions/generate-video/index.ts:83 | a reply without backticks is only trimmed |
| `ScenePlanner.CleanFenced` | supabase/functions/generate-video/index.ts:83 | a reply wrapped as "```json\n" + s + "\n```" is cleaned to `trim(s)`, the same text as the bare `s` |
| `ScenePlanner.FallbackPlan` | supabase/functions/generate-video/index.ts:88-95 | the fallback is one scene: its narration is the first `min(500, |script|)` characters of the script; its prompt is the fixed lead followed by the first `min(200, |script|)` characters |
| `ScenePlanner.PlanScenes` | supabase/functions/generate-video/index.ts:70-96 | a rejected planner reply fails with "Failed to generate scenes"; only a syntax error gives the fallback; a wrongly shaped document fails with its own message; parsed scenes are used as they are |
| `ScenePlanner.FencedReplyPlansAsBare` | supabase/functions/generate-video/index.ts:81-96 | a fenced reply plans exactly like the same reply without its fence |
| `ScenePlanner.SameCleanSamePlan` | supabase/functions/generate-video/index.ts:83-84 | replies that clean to the same text plan the same |
| `SceneImages.ImageRequestFor` | supabase/functions/generate-video/index.ts:116 | the image request is the scene prompt between the fixed lead and tail, and the prompt can be read back from it |
| `SceneImages.ImageRequestInjective` | supabase/functions/generate-video/index.ts:116 | different scene prompts give different image requests |
| `SceneImages.ImageOutcomes` | supabase/functions/generate-video/index.ts:102-138 | there is one image outcome per plan, by index, from that plan's own request |
| `SceneImages.KeepImaged` | supabase/functions/generate-video/index.ts:139 | never more survivors than plans; no survivor exactly when no outcome carries a non-empty URL; every survivor has a non-empty URL |
| `SceneImages.SurvivorIndices` | supabase/functions/generate-video/index.ts:139 | the surviving indices are strictly increasing and are exactly the indices whose outcome carries a non-empty URL |
| `SceneImages.KeptInPlanOrder` | supabase/functions/generate-video/index.ts:132-139 | the k-th survivor is the plan at the k-th surviving index, with that plan's narration and its own URL |
| `SceneImages.DroppedSceneIgnored` | supabase/functions/generate-video/index.ts:139 | changing the plan of a scene whose image failed leaves the survivors unchanged |
| `Narration.NarrationOfSurvivors` | supabase/functions/generate-video/index.ts:149 | the speech text is the narrations of the surviving plans, in plan order, joined by spaces; dropped plans contribute nothing |
| `Narration.JoinNarration` | supabase/functions/generate-video/index.ts:149 | the speech text opens with the first kept narration and contains every kept narration |
| `Narration.WordCount` | supabase/functions/generate-video/index.ts:179 | the word count is 1 + the number of whitespace runs, so at least 1 |
| `Narration.WordCountOfWords` | supabase/functions/generate-video/index.ts:149-179 | narrations that are non-empty blank-free words count one word each |
| `Narration.TotalDurationMs` | supabase/functions/generate-video/index.ts:180 | the estimate is exactly 400 ms per word |
| `Narration.PerSceneMs` | supabase/functions/generate-video/index.ts:181 | n scenes times the per-scene share is the total |
| `Narration.WithDuration` | supabase/functions/generate-video/index.ts:186-189 | each returned scene keeps its narration and URL and gets the same duration |
| `Narration.SumOfEqualDurations` | supabase/functions/generate-video/index.ts:186-189 | scenes of equal duration d last n times d together |
| `Narration.EvenShares` | supabase/functions/generate-video/index.ts:181-188 | scenes that each get total/n last the total together |
| `Narration.DurationsAddUp` | supabase/functions/generate-video/index.ts:181-192 | the returned scene durations add up to the total duration |
| `VideoHandler.ValidateScript` | supabase/functions/generate-video/index.ts:16-18 | a script passes exactly when it is a non-empty string, and it passes untrimmed; otherwise the error is "Script is required" |
| `VideoHandler.StatusFor` | supabase/functions/generate-video/index.ts:200-202 | 429 exactly when the message contains "Rate limit"; 402 exactly when it contains "Payment" but not "Rate limit"; 500 otherwise |
| `VideoHandler.Respond` | supabase/functions/generate-video/index.ts:183-207 | a result is returned as it is; a thrown message becomes `{error}` with the status `StatusFor` picks |
| `VideoHandler.MessageIs500` | supabase/functions/generate-video/index.ts:200-202 | a message without the letter R and without one letter of "Payment" gets 500 |
| `VideoHandler.ScriptRequiredIs500` | supabase/functions/generate-video/index.ts:17 | an invalid script is answered with 500 |
| `VideoHandler.GatewayKeyMissingIs500` | supabase/functions/generate-video/index.ts:26 | a missing gateway key is answered with 500 |
| `VideoHandler.SpeechKeyMissingIs500` | supabase/functions/generate-video/index.ts:29 | a missing speech key is answered with 500 |
| `VideoHandler.ScenesFailedIs500` | supabase/functions/generate-video/index.ts:73 | a rejected planning request is answered with 500 |
| `VideoHandler.NoImagesIs500` | supabase/functions/generate-video/index.ts:142 | no surviving image is answered with 500 |
| `VideoHandler.AudioFailedIs500` | supabase/functions/generate-video/index.ts:170 | a rejected speech request is answered with 500 |
| `VideoHandler.ImageRequests` | supabase/functions/generate-video/index.ts:102-121 | one image request per plan, by index, carrying that plan's request content |
| `VideoHandler.Assemble` | supabase/functions/generate-video/index.ts:173-195 | the reply holds the audio in base64 and "audio/mpeg"; the total is 400 ms per word of the narration; the kept scenes keep their narration and URL and each get total/n |
| `VideoHandler.AssembledConsistent` | supabase/functions/generate-video/index.ts:174-192 | in an assembled reply the base64 audio decodes to the audio bytes, and the scene durations add up to the total |
| `VideoHandler.RunPipeline` | supabase/functions/generate-video/index.ts:13-30 | an invalid script, then a missing gateway key, then a missing speech key, fail with their messages before any request is sent; otherwise the generation steps run on the script |
| `VideoHandler.Generate` | supabase/functions/generate-video/index.ts:32-195 | a planning failure stops after the planning request; no surviving image fails after the image requests with no speech request; otherwise exactly one speech request, for the joined survivor narrations; rejected audio fails, and audio completes the assembled result |
| `ContentHandler.Param` | supabase/functions/generate-content/index.ts:32-41 | an interpolated parameter is its value, or "undefined" when absent |
| `ContentHandler.Values` | supabase/functions/generate-content/index.ts:32-41 | the substituted texts are the template's parameters, in order |
| `ContentHandler.PartsFor` | supabase/functions/generate-content/index.ts:31-101 | each template has one more literal piece than it has parameters |
| `ContentHandler.KeysFor` | supabase/functions/generate-content/index.ts:31-101 | text and image templates read four parameters, code three, and no template reads one parameter twice |
| `ContentHandler.UserPrompt` | supabase/functions/generate-content/index.ts:31-101 | the user prompt opens with the template's first literal piece and carries the text of every parameter the template reads |
| `ContentHandler.ImagePromptSpelledOut` | supabase/functions/generate-content/index.ts:41 | the image prompt is "Create a {style} image of {subject}. Lighting: {lighting}. Composition: {composition}." |
| `ContentHandler.RequestFor` | supabase/functions/generate-content/index.ts:25-105 | a request exists exactly for text, image and code; it is an image generation exactly for image; it carries the type's filled-in prompt; text and code carry their own system prompt |
| `ContentHandler.Respond` | supabase/functions/generate-content/index.ts:59-147 | upstream 429 gives 429 with "Rate limit exceeded. Please try again later."; 402 gives 402 with "Payment required. Please add credits to your workspace."; any other failure gives 500 "AI gateway error"; an image needs a non-empty URL or the reply is 500 "No image generated"; text and code pass the content on |
| `ContentHandler.GenerateContent` | supabase/functions/generate-content/index.ts:13-153 | a missing key, then an unknown type, answer 500 with nothing sent; a request goes out exactly when both are fine; only an image request yields an image; error statuses are 429, 402 or 500, and 429 and 402 only echo the gateway's status |

## Left out

- Network and environment I/O are parameters or not modelled: `fetch`, `Deno.env`, `req.json()`, the CORS preflight, the response headers and console logging. The fixed model names, voice identifier, temperature and modality fields of the upstream requests are not modelled either.
- `Promise.all` concurrency is not modelled: the image requests are a map by index, and only the index order of the outcomes matters.
- `VideoHandler.Generate`: when a planned scene has no `imagePrompt`, the source's TypeError at line 103 rejects only that scene's promise; the image requests for all the other scenes are still sent, and the handler fails when `Promise.all` rejects at line 138. The model folds this case into a wrongly shaped plan (`BadShape`), so `sent` stops after the planning request and leaves out those image requests.
- JSON parsing is an oracle (`ParseOutcome`). A wrongly shaped planner document, such as a missing `scenes` list or a scene without an `imagePrompt`, fails with the runtime's message (`BadShape`). A gateway or planner reply body that is not JSON is not modelled.
- `ScenePlanner.PlanScenes`: a planner reply whose message content is truthy but not a string (a number or an object) is not modelled; the reply's content is a string or missing. In the source, `replace` then throws inside the inner `try` at line 83 and the fallback plan of lines 88-95 is used, just as for a syntax error.
- `SceneImages.KeepImaged`: narrations that are not strings are not modelled; a plan's narration is a string. In the source such a scene is kept, `join(' ')` at line 149 renders `undefined` and `null` as "" and any other value as its string form, and the reply carries the raw value.
- JavaScript runtime details are not modelled. Whitespace is the ASCII part of `\s`. Strings are sequences of characters, not UTF-16 code units. Durations are exact `real` numbers, not IEEE doubles. The argument-count limit of `String.fromCharCode(...bytes)` and the Latin-1 behaviour of `btoa` are not modelled: every byte is taken as one character.
- In `generate-content`, a missing `params` object (the runtime TypeError when a template reads it) and parameter values that are not strings are not modelled: parameters are a map from name to text. A gateway reply with an empty `choices` list (also a TypeError) is not modelled.
- A thrown value that is not an `Error` (answered with "Unknown error") is not modelled: every failure of the model carries a message.
- The constant `success: true` field of the video reply is not modelled.
- `generate-content`'s `type` is a string. A missing or non-string `type` behaves like any other unknown type.
- `ScenePlanner.RemoveFences`: its own contract states only that the result is never longer; what it does is stated by `RemoveFencesKeeps`, `CleanUnfenced` and `CleanFenced` for replies without stray backticks.
