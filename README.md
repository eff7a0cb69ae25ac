# Azure AI Tasks: a verified model

The Azure AI Tasks integration gives Home Assistant an `ai_task` entity. The
entity generates data through an Azure OpenAI chat deployment and images through
an Azure OpenAI image deployment. This project models the integration's decision
logic in Dafny and proves properties of it:

- which models an entity offers, and which feature flags follow;
- how a configured model name is looked up: options, then entry data, then the
  name stored at setup;
- how attachments are found in the chat log and the task;
- how each attachment reference is dispatched: camera, media source with a
  local-file fallback, direct URL, or unsupported. The result is always base64
  text or nothing;
- the chat request: plain text, or a text part followed by one data URI per
  resolved attachment, sent to a vision deployment when attachments exist;
- the image request: a per-model payload table with its `api-version`;
- how replies become results or errors;
- the config-entry migration and the per-domain registry map kept in `hass.data`.

Layout, one Dafny module per file:

| file | module | models |
|---|---|---|
| wrappers.dfy | `Wrappers` | `Option` and `Result` |
| text.dfy | `Text` | the Python string operations the code relies on: `strip`, `rstrip`, `startswith`, `in`, `split`, `replace`, `str(int)`, `int(str)` |
| base64.dfy | `Base64` | `base64.b64encode` / `b64decode`, following section 4 of RFC 4648, with the round trip proved |
| errors.dfy | `Errors` | every error the tasks raise, with its exact message |
| attachments.dfy | `Attachments` | `_process_attachment` and the helpers it dispatches to |
| image_request.dfy | `ImageRequest` | payload table, size, MIME type and reply handling of `_async_generate_image` |
| chat_request.dfy | `ChatRequest` | chat-log scanning, message building, deployment choice and reply handling of `_async_generate_data` |
| integration.dfy | `Integration` | `async_migrate_entry`, `async_setup_entry` and `async_unload_entry` of `__init__.py` |
| entity.dfy | `Entity` | the platform's `async_setup_entry` and the `AzureAITaskEntity` class with its two tasks |

Foreign calls are parameters, given as functions of their arguments:

- In `Attachments.Env`: the camera snapshot, media-source resolution, the HTTP GET, and the file-system tests and reads.
- In `Entity.Service`: the two HTTP POSTs.
- Parameters of the data task: `json_loads` and the host-assigned entity id.

An exception from any of these calls is one of its outcomes. The HTTP GET and the two POSTs also say whether the exception is an `aiohttp.ClientError`, because the tasks treat the two kinds differently.

Behaviour of the code worth knowing:

- The camera entity id is computed with `str.replace`. Every occurrence of `media-source://camera/` is removed, not only the leading one.
- The media-source local-file fallback runs when resolution raises. It also runs when fetching the resolved URL raises, because both share one `try`.
- The size parse assigns the width before parsing the height. A size such as `12xabc` therefore gives width 12 and the default height. This cannot be reached, since every payload's size is `1024x1024`.
- A whitespace-only model name resolves to `""`, not to `None`. Either way it is falsy.
- An entry-data key that is present but empty shadows the name stored at setup.
- The reply text of a data task is parsed after stripping surrounding whitespace, and nothing else.
- An absolute local file name makes every candidate path equal to that name, as `os.path.join` does.
- The two tasks rewrap only `aiohttp.ClientError` as "Error communicating with Azure AI". Any other exception from a post or from the image download leaves the task as raised; the model reports it as `Uncaught`. The attachment helpers, by contrast, catch every exception.
- The local file name is the last piece of a `split`. For `media-source://media_source/local/` that is the text after its last occurrence. `/media/local/` can overlap itself by one `/`, and `split` skips an occurrence that overlaps one it consumed. So `/media/local/media/local/x` gives `media/local/x`, not `x`.

## Model

| member | source | states |
|---|---|---|
| Text.Strip | custom_components/azure_ai_tasks/ai_task.py:34-38 | `str.strip()`: the result has no leading or trailing whitespace, and is empty exactly when the input is all whitespace |
| Text.StripIsTrim | custom_components/azure_ai_tasks/ai_task.py:34-38 | `str.strip()` is the input minus its surrounding whitespace: a slice of the input with only whitespace before and after it, whose own ends (by Strip's contract) are not whitespace |
| Text.StripIdempotent | custom_components/azure_ai_tasks/ai_task.py:117 | stripping twice equals stripping once |
| Text.RStripChar | custom_components/azure_ai_tasks/ai_task.py:76 | `rstrip("/")` drops exactly the trailing slashes: the result is a prefix, everything after it is `/`, and it does not end in `/` |
| Text.FindFrom | custom_components/azure_ai_tasks/ai_task.py:173 | finds the first occurrence at or after a position, or reports that there is none |
| Text.Contains | custom_components/azure_ai_tasks/ai_task.py:173 | the `in` test holds exactly when the substring occurs at some index |
| Text.Split | custom_components/azure_ai_tasks/ai_task.py:248 | `str.split` always yields at least one piece |
| Text.SplitJoin | custom_components/azure_ai_tasks/ai_task.py:248 | joining the pieces of a split with the separator gives back the input |
| Text.SplitPieces | custom_components/azure_ai_tasks/ai_task.py:248 | no piece of a split contains the separator |
| Text.LastPieceAtLastCut | custom_components/azure_ai_tasks/ai_task.py:247-250 | `split(sep)[-1]` starts where the left-to-right, non-overlapping scan last resumed: right after a consumed occurrence, with no occurrence from there on, or at the start when `sep` does not occur; it never contains `sep` |
| Text.LastPieceAfterLastOccurrence | custom_components/azure_ai_tasks/ai_task.py:247-250 | for a separator that cannot overlap itself, `split(sep)[-1]` is the text after the last occurrence of `sep` |
| Text.ReplaceLeadingOnly | custom_components/azure_ai_tasks/ai_task.py:193 | `replace(p, "")` on `p + rest` gives `rest` when `rest` does not contain `p` |
| Text.NatToDecimal | custom_components/azure_ai_tasks/ai_task.py:393 | `str(n)` is non-empty, all digits, and has no leading zero |
| Text.ParseDecimal | custom_components/azure_ai_tasks/ai_task.py:426-427 | `int(str(n)) == n` for every integer |
| Text.SplitAroundChar | custom_components/azure_ai_tasks/ai_task.py:424 | splitting `a + c + b` on `c` gives `[a, b]` when neither side contains `c` |
| Text.SplitWithoutSeparator | custom_components/azure_ai_tasks/ai_task.py:424-425 | a text without the separator splits into itself alone |
| Base64.CharIndex | custom_components/azure_ai_tasks/ai_task.py:404 | a character's 6-bit value is below 64 and maps back to the character; `=` has none |
| Base64.RoundTrip | custom_components/azure_ai_tasks/ai_task.py:404 | decoding the encoding of any bytes gives those bytes |
| Base64.EncodeEmpty | custom_components/azure_ai_tasks/ai_task.py:538 | the encoding is empty exactly when there are no bytes |
| Base64.EncodeLength | custom_components/azure_ai_tasks/ai_task.py:200 | four characters for every started group of three bytes |
| Errors.RaiseError | custom_components/azure_ai_tasks/ai_task.py:472-474 | a raise is rewrapped as the communication error exactly when it is an `aiohttp.ClientError`, keeping its text; any other raise stays as it was |
| Errors.AuthenticationMessageDistinct | custom_components/azure_ai_tasks/ai_task.py:388-393 | the 401 message differs from the transport and generic-status messages |
| Attachments.ClassifyFirstMatch | custom_components/azure_ai_tasks/ai_task.py:160-183 | each dispatch branch is taken exactly when its test holds and every earlier test fails; a missing id yields no route |
| Attachments.LocalPrefixIsLocal | custom_components/azure_ai_tasks/ai_task.py:171-173 | the `/media/local/` test is subsumed by the `local/` test |
| Attachments.CameraEntityIdIsSuffix | custom_components/azure_ai_tasks/ai_task.py:167-193 | a `media-source://camera/<e>` id goes to the camera branch with entity `<e>`, when `<e>` does not itself contain `media-source://camera/` |
| Attachments.LocalFilenameAfterMarker | custom_components/azure_ai_tasks/ai_task.py:247-253 | `media-source://media_source/local/` is checked before `/media/local/`, and there is no name without either. With the first marker the name follows its last occurrence. With `/media/local/` the name starts where `split`'s scan last resumed |
| Attachments.MediaSourceLocalOverlapFree | custom_components/azure_ai_tasks/ai_task.py:247-248 | `media-source://media_source/local/` cannot overlap itself |
| Attachments.LocalPrefixOverlap | custom_components/azure_ai_tasks/ai_task.py:249-250 | for `/media/local/media/local/x`, `/media/local/` also occurs at index 12, yet the name is `media/local/x` |
| Attachments.RelativeCandidates | custom_components/azure_ai_tasks/ai_task.py:257-265 | the candidates are `<config>/www/media/<f>`, `/media/<f>`, `<config>/www/<f>`, in that order |
| Attachments.AbsoluteCandidates | custom_components/azure_ai_tasks/ai_task.py:257-265 | an absolute file name makes all three candidates equal to it |
| Attachments.FirstExistingOrLastChoice | custom_components/azure_ai_tasks/ai_task.py:260-265 | the kept path is the first existing candidate, or the last one when none exists |
| Attachments.ThreeCandidates | custom_components/azure_ai_tasks/ai_task.py:257-265 | with three candidates the kept path is the first that exists, else the third |
| Attachments.LocalMediaFile | custom_components/azure_ai_tasks/ai_task.py:239-278 | the reassignment of `media_path` and the final exists/is-file/read test compute the local-file result |
| Attachments.MediaSourceBytes | custom_components/azure_ai_tasks/ai_task.py:209-278 | a media-source result encodes one of two things. Either it is the 200 body of the resolved URL, or, after resolution or the fetch raised, the contents of the kept local file, which exists and is a regular file |
| Attachments.AttachmentBytes | custom_components/azure_ai_tasks/ai_task.py:156-294 | any result is the base64 encoding of the bytes the route's collaborator returned: the camera snapshot, the 200 body of a direct URL, or the media-source bytes above |
| Attachments.ResolvedIsBase64 | custom_components/azure_ai_tasks/ai_task.py:156-294 | a resolved attachment decodes back to its bytes |
| Attachments.MediaSourceFallbackOnlyOnRaise | custom_components/azure_ai_tasks/ai_task.py:213-232 | files are not consulted when resolution gives a URL whose fetch does not raise, or gives no URL |
| Attachments.FallbackNeedsLocalMarker | custom_components/azure_ai_tasks/ai_task.py:225-232 | without `local/` in the id, a result comes only from a resolved URL whose fetch answered 200 |
| Attachments.UnroutedGivesNone | custom_components/azure_ai_tasks/ai_task.py:160-186 | no media id, or an unsupported type, yields no image, never an error |
| ImageRequest.BuildPayload | custom_components/azure_ai_tasks/ai_task.py:326-369 | the payload is the base fields merged with the model's fields; `prompt`, `model`, `n = 1` and `size = 1024x1024` are always present; the `api-version` is the model's |
| ImageRequest.ProfileKeepsRequest | custom_components/azure_ai_tasks/ai_task.py:326-369 | no model's fields override `prompt`, `model` or `n`, and every model asks for 1024x1024 |
| ImageRequest.ProfileTable | custom_components/azure_ai_tasks/ai_task.py:333-369 | the exact field set and `api-version` for `gpt-image-1`, `dall-e-3`, `dall-e-2` and any other name |
| ImageRequest.ImageDimensions | custom_components/azure_ai_tasks/ai_task.py:419-429 | the width and height are reassigned step by step as the parse succeeds |
| ImageRequest.DimensionsRoundTrip | custom_components/azure_ai_tasks/ai_task.py:419-429 | a size written `<W>x<H>` reads back as `(W, H)` |
| ImageRequest.DimensionsWithoutSeparator | custom_components/azure_ai_tasks/ai_task.py:424-425 | a size without `x` leaves the 1024 defaults |
| ImageRequest.NonNumericRejected | custom_components/azure_ai_tasks/ai_task.py:426-429 | `int()` rejects a trimmed text starting with neither a sign nor a digit, which the size parse's `except` absorbs |
| ImageRequest.WidthKeptWhenHeightRejected | custom_components/azure_ai_tasks/ai_task.py:426-429 | a rejected height keeps the width already parsed |
| ImageRequest.ProfileDimensions | custom_components/azure_ai_tasks/ai_task.py:419-429 | every model's payload gives 1024 by 1024 |
| ImageRequest.ImageMime | custom_components/azure_ai_tasks/ai_task.py:431-437 | the MIME type always starts with `image/` |
| ImageRequest.ProfileMime | custom_components/azure_ai_tasks/ai_task.py:431-437 | every built payload gives `image/png` |
| ImageRequest.StatusError | custom_components/azure_ai_tasks/ai_task.py:381-393 | a non-200 image reply is blocked by the content filter iff the body mentions `contentFilter`; otherwise 401 is an authentication error, 404 a missing model, and anything else a generic status error |
| ImageRequest.InlineImagePreferred | custom_components/azure_ai_tasks/ai_task.py:400-404 | with `b64_json` present, the image is the encoded bytes and the URL is ignored |
| ImageRequest.ItemWithoutImage | custom_components/azure_ai_tasks/ai_task.py:400-414 | neither field is an error, and the HTTP client matters only without `b64_json` |
| ImageRequest.DownloadOutcomes | custom_components/azure_ai_tasks/ai_task.py:406-413 | without inline data the URL is downloaded: a 200 reply gives its body, another status the download error, a client error the communication error, and any other raise passes through unwrapped |
| ImageRequest.BodyWithoutData | custom_components/azure_ai_tasks/ai_task.py:457-470 | without data, the reply is an error. It is a content-filter error carrying the message iff the code is `contentFilter`. Any other code gives an API error with that code and the message, a missing code gives one with code `unknown`, and a reply without `error` is an unexpected-format error. A missing message is `Unknown error` |
| ImageRequest.CaptionDefault | custom_components/azure_ai_tasks/ai_task.py:397-417 | the caption is `revised_prompt`, or the user's prompt when absent |
| ChatRequest.CollectInputs | custom_components/azure_ai_tasks/ai_task.py:493-519 | the loop yields the last user message and the log's attachments in order, then the task's |
| ChatRequest.FirstInstruction | custom_components/azure_ai_tasks/ai_task.py:314-318 | the loop with `break` yields the first user message |
| ChatRequest.LastUserMessageIsLast | custom_components/azure_ai_tasks/ai_task.py:497-499 | the data task's instruction comes from a user entry with no user entry after it, and is absent only in a log without user entries |
| ChatRequest.FirstUserMessageIsFirst | custom_components/azure_ai_tasks/ai_task.py:314-318 | the image task's instruction comes from a user entry with no user entry before it |
| ChatRequest.LogAttachmentsAppend | custom_components/azure_ai_tasks/ai_task.py:497-511 | the attachments of consecutive log parts are concatenated in log order |
| ChatRequest.UserOnlyLogHasNoAttachments | custom_components/azure_ai_tasks/ai_task.py:497-499 | user entries contribute no attachments |
| ChatRequest.Instruction | custom_components/azure_ai_tasks/ai_task.py:521-522 | a missing or empty instruction is the "No task instructions" error; any other is kept as is |
| ChatRequest.BuildMessageContent | custom_components/azure_ai_tasks/ai_task.py:529-570 | the loop builds the plain text, or the text part followed by the image parts |
| ChatRequest.ImagePartsCount | custom_components/azure_ai_tasks/ai_task.py:534-544 | at most one image part per attachment |
| ChatRequest.ImagePartsAreDataUris | custom_components/azure_ai_tasks/ai_task.py:534-544 | every image part is `data:image/jpeg;base64,` followed by the encoding of some bytes |
| ChatRequest.NoneResolved | custom_components/azure_ai_tasks/ai_task.py:529-545 | when no attachment resolves, the list form is kept with the text part alone |
| ChatRequest.NoImageParts | custom_components/azure_ai_tasks/ai_task.py:534-544 | unresolved attachments add no parts |
| ChatRequest.AllResolved | custom_components/azure_ai_tasks/ai_task.py:534-544 | when every attachment resolves, part `i` carries attachment `i`'s data |
| ChatRequest.VisionDeployment | custom_components/azure_ai_tasks/ai_task.py:572-582 | without attachments the configured deployment is used; with attachments it is a `gpt-4` model, namely the configured one iff it starts with `gpt-4` (or is `gpt-4o`) |
| ChatRequest.ChatAnswerShape | custom_components/azure_ai_tasks/ai_task.py:597-620 | a text answer is the stripped first choice; a structured answer is the parse of that text, and a parse failure is the structured-response error |
| ChatRequest.ChatResultFacts | custom_components/azure_ai_tasks/ai_task.py:597-620 | every successful answer is structured exactly when a structure was asked for, and a text answer carries no surrounding whitespace |
| ChatRequest.ChatFailures | custom_components/azure_ai_tasks/ai_task.py:590-627 | a client error of the post gives the communication error and any other raise passes through unwrapped; a non-200 status and a reply without choices give their errors |
| Integration.WithoutDeprecatedChatModel | custom_components/azure_ai_tasks/__init__.py:22-35 | keeps every key; blanks `chat_model` exactly when it is `gpt-35-turbo`; leaves every other value unchanged |
| Integration.CleaningIdempotent | custom_components/azure_ai_tasks/__init__.py:27-35 | cleaning twice is cleaning once, and no cleaned map names the deprecated model |
| Integration.NamesDeprecatedModel | custom_components/azure_ai_tasks/__init__.py:27-35 | the `migrated` flag's condition holds exactly when cleaning changes the map |
| Integration.MigrateEntry | custom_components/azure_ai_tasks/__init__.py:17-50 | a version-1 entry moves to version 2 with data and options cleaned independently; other versions are untouched; the result is always true |
| Integration.Stored | custom_components/azure_ai_tasks/__init__.py:56-57 | setup creates the domain map if absent, stores the data under the id, and touches no other entry or domain |
| Integration.Removed | custom_components/azure_ai_tasks/__init__.py:76 | the pop succeeds exactly when the id is registered, and removes only that id |
| Integration.SetupThenUnload | custom_components/azure_ai_tasks/__init__.py:53-78 | unloading right after setup restores the registry |
| Integration.FirstSetupThenUnload | custom_components/azure_ai_tasks/__init__.py:53-78 | for the domain's first entry, setup then unload leaves an empty domain map |
| Integration.HassData.SetupEntry | custom_components/azure_ai_tasks/__init__.py:53-62 | the registry becomes `Stored(...)` and the result is true |
| Integration.HassData.UnloadEntry | custom_components/azure_ai_tasks/__init__.py:73-78 | the entry is removed only when the platforms unloaded; the platforms' result is returned; a missing key is the `KeyError` outcome |
| Entity.EffectiveModelPriority | custom_components/azure_ai_tasks/ai_task.py:112-124 | options win when non-empty, then entry data, then the stored name; the result is stripped, or `None` when the choice is empty |
| Entity.SetupModelAgrees | custom_components/azure_ai_tasks/ai_task.py:112-124 | over unchanged maps, the property and the setup value agree up to `None` versus `""` |
| Entity.FeatureBits | custom_components/azure_ai_tasks/ai_task.py:126-144 | GENERATE_DATA and SUPPORT_ATTACHMENTS are set iff there is a chat model, GENERATE_IMAGE iff there is an image model, and no other bit is set |
| Entity.TaskEntity.constructor | custom_components/azure_ai_tasks/ai_task.py:64-100 | the endpoint loses its trailing `/`, the unique id is `azure_ai_tasks_<entry id>`, and the features follow the two names |
| Entity.TaskEntity.SupportedFeatures | custom_components/azure_ai_tasks/ai_task.py:126-144 | the features follow the current model lookups |
| Entity.AttachmentsFlagAgrees | custom_components/azure_ai_tasks/ai_task.py:126-149 | attachments are supported iff the attachments flag is offered |
| Entity.SetupFeaturesAgree | custom_components/azure_ai_tasks/ai_task.py:126-144 | the features fixed at construction equal those of the property while the entry is unchanged |
| Entity.ImageTaskFailsEarly | custom_components/azure_ai_tasks/ai_task.py:302-321 | no image model, or no instruction, fails before posting |
| Entity.ImageRequestFacts | custom_components/azure_ai_tasks/ai_task.py:313-380 | the image request is posted exactly when there is a model and an instruction, and carries the first instruction and the model to the model's deployment and `api-version` |
| Entity.ImageReplyFacts | custom_components/azure_ai_tasks/ai_task.py:381-474 | a client error of the post gives the communication error and any other raise passes through unwrapped; a failed status is reported by the status classification; a result carries the reply's image and caption, the payload's size and MIME type, and the model |
| Entity.ImageTaskResultFacts | custom_components/azure_ai_tasks/ai_task.py:296-455 | a generated image is a 1024x1024 PNG from the configured model |
| Entity.TaskEntity.GenerateImage | custom_components/azure_ai_tasks/ai_task.py:296-474 | the result is the image task's; on success the log gains `Generated image: <caption>`, otherwise it is unchanged |
| Entity.TaskEntity.ReadImageReply | custom_components/azure_ai_tasks/ai_task.py:381-474 | the steps after the post produce exactly the reply result the image task specifies: a raise (rewrapped only when it is a client error), a status error, a body error, or the image with the size and MIME type read back from the payload |
| Entity.DataRequestFacts | custom_components/azure_ai_tasks/ai_task.py:493-593 | a data request is posted iff there is an instruction. Without attachments it is plain text to the configured deployment. With attachments it is a text part followed by `ImageParts` (at most one per attachment), sent to the configured deployment when it starts with `gpt-4` and to `gpt-4o` otherwise |
| Entity.DataTaskFacts | custom_components/azure_ai_tasks/ai_task.py:482-623 | no chat model fails first; a result is structured iff a structure was asked for, and a text result is stripped |
| Entity.TaskEntity.GenerateData | custom_components/azure_ai_tasks/ai_task.py:476-627 | the method computes the data task's result |
| Entity.ChatLog.AddAssistantContent | custom_components/azure_ai_tasks/ai_task.py:440-445 | the log gains exactly one assistant entry at its end |
| Entity.SetupPlatform | custom_components/azure_ai_tasks/ai_task.py:24-58 | an unregistered entry is a `KeyError`; no entity is added when both models are blank; with a model but a missing name, endpoint or key it is a `KeyError`; otherwise an entity is created from the stored name, endpoint and key with the setup model names |

## Left out

- HTTP traffic, the camera snapshot, media-source resolution and the file system are foreign calls. They are function parameters, so their behaviour is arbitrary but fixed.
- Async scheduling, aiohttp sessions and logging are not modelled. Log messages are not modelled either.
- The temperature `0.7` is a float. It is kept as its literal text.
- The `try … except AttributeError` probe for SUPPORT_ATTACHMENTS is modelled as always succeeding.
- The feature values 1, 2 and 4 are those of the host's `AITaskEntityFeature` enum, which is not part of this model.
- `async_update_options` only asks the host to reload the entry. That reload is a foreign call.
- The option keys `chat_model` and `image_model` are taken as the values of `CONF_CHAT_MODEL` and `CONF_IMAGE_MODEL`. `ai_task.py` imports those two names from `const.py`, which does not define them; `chat_model` is the literal `__init__.py` uses, and `image_model` follows the same pattern.
- `config_flow.py` is not part of this model. It holds the setup form and a connectivity check.
- Base64.Decode accepts only canonical padded text. Python's `b64decode` also discards characters outside the alphabet; that lenience is not modelled, because the model only decodes what the service sends.
- Text.ParseInt accepts ASCII digits only. Python's `int()` also accepts other Unicode decimal digits.
- Attachments.JoinPath keeps strings that pathlib would collapse: pathlib drops repeated slashes, `.` segments and trailing slashes, and the model does not. This is harmless, because the path test, the file test and the file read are arbitrary functions of the string.
- A reply field that is present but `null` is treated as absent. That includes `revised_prompt`, `message.content` and `data`. In Python some of these raise a `TypeError` or `AttributeError`, which reaches the host without a message of this integration.
- JSON bodies that cannot be parsed, and the non-`ClientError` exceptions they cause, are not modelled.
- A `b64_json` that Python rejects ends the task with `binascii.Error`. The model reports it as `UndecodableImage`, which has no message of its own.
- `entry.data` is shared between the config entry and `hass.data`. The model copies it, so a later in-place change to one is not visible in the other.
- The request headers are recorded as data only: `api-key` for images, a bearer token for chat. Authentication itself is the service's.
