# Image topics and chat completion core, in Dafny

This project models the pure logic of two image description servers and of a
chat completion extension.

The image servers accept an uploaded image (or an image URL). They ask a
vision model to describe the image and to propose conversation topics. The
main server decodes the model's JSON reply into a `scene` and a `topics`
list. The earlier server returns the reply text as it is. The chat extension
turns a configuration and the caller's conversation turns into a streamed
chat completion request.

Modules:

- `Wrappers`: `Option` and `Result`.
- `Ascii`: ASCII lower-casing.
- `Filenames`: the upload filename check. Both servers use the same check.
- `Json`: parsed JSON values and Python truthiness on them.
- `Messages`: the roles, content parts and turns that both request kinds carry.
- `Vision`: builds the vision request and decodes the vision reply.
- `Service`: what both servers share. This is the collaborator record `Env`,
  the handler outcome `Reply`, and the upload decision ladder.
- `ImageServer`: the `describe_image` and `describe_image_url` routes of
  `img_description_server/app.py`.
- `TempServer`: the `describe_image` route of `img_description_server/server-temp.py`.
- `ChatGPT`: the configuration, the proxy settings, request assembly and
  error wrapping of the chat extension.

Foreign calls are function-valued fields of `Service.Env`. These are
`secure_filename`, storing the image plus `url_for`, the provider's
completion call and `json.loads`. They are left uninterpreted. A provider
call answers `Ok(text)` or `Err(cause)`. A JSON parse answers `Value(json)`
or `Malformed`. An exception that escapes a Flask handler is the outcome
`Reply.Raised` with the reason: a dispatch failure, text that is not JSON, a
reply that is not an object, or a missing key. The random seed of the chat
configuration is a nondeterministic choice in `ChatGPT.NewConfig`.

Some facts about the code that shape the model:

- The reply is not turned into typed topics. The JSON values under `scene`
  and `topics` are returned unchanged. Nothing checks that there are three
  topics.
- A parse failure, a non-object reply and a missing key raise different
  Python exceptions, so they are different `Failure` cases. A parse failure
  keeps the raw text, as the JSON decode error does. A request body that is
  not an object is its own case too, because there the `.get` call raises.
- There is no configuration error for an empty API key.
- No reply format carries a "start conversation" flag.

## Model

| member | source | states |
|---|---|---|
| Filenames.LastIndexOf | img_description_server/app.py:109 | The split point of `rsplit('.', 1)`. The returned position holds the dot and no dot comes after it. There is no position exactly when the name has no dot. |
| Filenames.AllowedFileMeetsSpec | img_description_server/app.py:108-109 | `allowed_file` (the predicate `Filenames.AllowedFile`, split on the last dot, then a lookup of the lower-cased second half) holds iff some dot in the name has no later dot, and the text after it, lower-cased, is png, jpg, jpeg, gif or webp. |
| Filenames.OnlyFinalExtensionCounts | img_description_server/app.py:109 | For any stem (dots included) and any dot-free extension, `stem.ext` is accepted iff the lower-cased extension is allowed. Only the final extension counts. |
| Filenames.AllowedFileIgnoresCase | img_description_server/app.py:109 | A name and its ASCII lower-cased form are accepted or rejected together. |
| Filenames.NoExtensionRejected | img_description_server/app.py:109 | A name with no dot is rejected. So is a name that ends in a dot, whose extension is empty. |
| Filenames.DoubleExtensionImage | img_description_server/app.py:109 | `x.exe.png` is accepted. |
| Filenames.DoubleExtensionProgram | img_description_server/app.py:109 | `x.png.exe` is rejected. |
| Filenames.UpperCaseExtension | img_description_server/server-temp.py:85 | `A.JPG` is accepted. |
| Filenames.MissingExtensionCases | img_description_server/server-temp.py:85 | `file.`, `png` and the empty name are rejected. |
| Service.Upload | img_description_server/app.py:113-145 | An empty name gives `('No selected file', 400)`. Any other name that is not an allowed image name gives `('Invalid file type', 400)`. Code 200 happens iff the name is an allowed image name, and then the message is the public URL of the sanitised name. |
| Service.EmptyNameCheckedFirst | img_description_server/server-temp.py:88-91 | The empty name would also fail the extension check. It is still reported as "No selected file", because that check comes first. |
| Vision.BuildRequest | img_description_server/app.py:86-104 | The request holds exactly one `user` turn. Its content is two parts in order: the text of the prompt, then the image URL. It carries the configured model and `max_tokens` 300. Prompt and URL can be read back unchanged. |
| Vision.BuildRequestInjective | img_description_server/app.py:87-103 | Different (model, prompt, URL) inputs give different requests. No input is dropped. |
| Vision.DecodeDescription | img_description_server/app.py:73-84 | Success happens iff the reply parses to an object holding both `scene` and `topics`, and then both values come back unchanged. Text that is not JSON fails with the raw text. A parsed value that is not an object fails as such. A missing key fails naming that key, and `scene` is the one named when both are missing. There is never a partial result. |
| Vision.DecodeEncode | img_description_server/app.py:78-84 | Decoding an object that holds `scene` and `topics`, plus any other keys, returns exactly that scene and those topics. |
| Vision.TopicsNotResized | img_description_server/app.py:82-84 | A topics list of any length comes back with the same items in the same order. Nothing is truncated or padded. |
| Vision.ThreeTopicsDecode | img_description_server/app.py:78-84 | A reply with scene "a park" and three topics decodes to that scene and those three topics in order. |
| Vision.NotJsonFails | img_description_server/app.py:78 | The reply `not json` fails as invalid JSON and carries `not json`. |
| ImageServer.DescribeUrl | img_description_server/app.py:167-172 | The request is built from the server's model, its prompt and the given URL. A provider failure escapes with its cause. A decodable reply gives the 200 body with `scenario` and `topics`. A decode failure escapes. |
| ImageServer.DescribeImage | img_description_server/app.py:154-172 | A missing `image` part gives 400 "No image provided". An upload that is not code 200 is answered with the upload's message and code. Otherwise the public URL of the stored image is described. |
| ImageServer.DescribeImageUrl | img_description_server/app.py:174-193 | A missing or `null` body gives 400 "Invalid or missing JSON in request body". A body that is not an object raises on `.get`, a failure kept apart from the decoder's. A missing or falsy `image_url` gives 400 "No image_url provided". Only otherwise is the request built, from that URL. |
| TempServer.ImageDescription | img_description_server/server-temp.py:62-82 | The earlier server sends one image question, built from its prompt and the image URL. It returns the reply text as it came, or fails with the provider's cause. |
| TempServer.DescribeImage | img_description_server/server-temp.py:130-148 | A missing `image` part gives 400 "No image provided". The upload errors are the same as the main server's. For an allowed name, a provider success returns the raw reply text under `description`, and a provider failure escapes with its cause. |
| ChatGPT.NewConfig | agents/addon/extension/openai_chatgpt_python/openai_chatgpt.py:9-33 | Every argument is stored verbatim. A supplied seed is kept. An absent seed becomes some integer in [0, 10000], drawn once at construction. |
| ChatGPT.ProxyMap | agents/addon/extension/openai_chatgpt_python/openai_chatgpt.py:76-81 | A non-empty proxy URL maps both `http` and `https` to that URL. A missing or empty one gives no proxies. |
| ChatGPT.NewClient | agents/addon/extension/openai_chatgpt_python/openai_chatgpt.py:68-82 | The client keeps its configuration. Its session proxies are `http` and `https` to the proxy URL when one is set, and nothing otherwise. |
| ChatGPT.EffectivePrompt | agents/addon/extension/openai_chatgpt_python/openai_chatgpt.py:85-88 | The configured prompt is always a suffix. With a non-empty scenario, the prompt is the `##scenario` header line, then the scenario, then a newline, then the prompt. With no scenario or an empty one, it is the prompt exactly. |
| ChatGPT.ScenarioRecoverable | agents/addon/extension/openai_chatgpt_python/openai_chatgpt.py:85-86 | For the same base prompt, two set scenarios that give the same system prompt are the same scenario. |
| ChatGPT.ScenarioPromptExample | agents/addon/extension/openai_chatgpt_python/openai_chatgpt.py:85-88 | Scenario `SCN` on prompt `BASE` gives "##scenario\nSCN\nBASE". No scenario, or an empty one, gives "BASE". |
| ChatGPT.BuildChatRequest | agents/addon/extension/openai_chatgpt_python/openai_chatgpt.py:90-106 | The request holds the system turn with the effective prompt, then the caller's turns. Its length is one more than the caller's, and element i+1 is input i. Model, sampling parameters, `max_tokens` and seed are copied from the configuration. Streaming is on. |
| ChatGPT.CallerTurnsPreserved | agents/addon/extension/openai_chatgpt_python/openai_chatgpt.py:92-98 | After the first turn, the request's turns are exactly the caller's turns, in their order. |
| ChatGPT.ScenarioOnlyChangesSystemTurn | agents/addon/extension/openai_chatgpt_python/openai_chatgpt.py:84-106 | Changing the scenario changes only the system turn of the request. |
| ChatGPT.GetChatCompletionsStream | agents/addon/extension/openai_chatgpt_python/openai_chatgpt.py:108-112 | The result succeeds iff the provider call does, and a successful response is returned unchanged. On failure, the message is "CreateChatCompletionStream failed, err: " followed by the cause, and the cause can be read back from it. |

## Left out

- Flask routing, `request` and `jsonify` are not modelled. A handler's outcome is a `Reply` value.
- HTTP 500 for an exception that escapes a handler is not modelled. It is Flask's mapping of `Reply.Raised`.
- The PIL flip, the byte-stream save and `image_file.save` are left out. They are image I/O.
- A PIL failure to open a non-image file is not modelled. Storing the image is taken to succeed once the ladder admits the name.
- `secure_filename` and `url_for` are uninterpreted functions in `Service.Env`. They are foreign code.
- The `uploaded_file` static route is left out. It is file serving.
- The truth test on the uploaded file object is not modelled separately. That object is truthy when its filename is non-empty, and the ladder has already checked this. The file-storage class is not part of this model.
- The contents of the `image` part are not modelled, only its filename.
- `request.get_json` is reduced to a body that is either absent or a parsed JSON value. Flask's own errors for a wrong content type or an unparsable body depend on its version and are not modelled.
- `json.loads` is an uninterpreted function returning a parsed value or `Malformed`. It is a JSON parser, not core logic.
- `response.choices[0].message.content` is taken to be the reply text. A missing or `None` content is not modelled.
- The OpenAI client and the chat stream are not modelled. The provider is an oracle returning a stream or a cause. There is no chunk sequencing in this code to model.
- Interruption of a stream after chunks were delivered is not modelled. The stream belongs to the provider.
- `default_config` is left out. Its constants are opaque, and its only logic is a seed draw, which `ChatGPT.NewConfig` covers.
- The text of the `PROMPT` constants and the configured model name are parameters. They are opaque strings.
- `configparser` loading, logging and `print`, timing code, the `hello` endpoint and the test helpers are left out. They are plumbing.
- Python's Unicode `str.lower` is modelled as ASCII case folding only.
- The caller's chat turns are modelled as `Messages.Message` values: three roles, and plain text or a list of text and image parts. The source forwards any dictionaries. The turns are only copied, so the restriction changes no property.
- Floating-point sampling parameters are Dafny `real` values. They are copied and never computed with.
- Building a request does not change the configuration, because every value in the model is immutable. No lemma states this separately.
