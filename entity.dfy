/** The `ai_task` platform: the platform's `async_setup_entry`, and the
    `AzureAITaskEntity` with its feature flags, its model lookups and its two
    tasks, generating an image and generating data. The two HTTP posts are the
    fields of `Service`; the rest of the foreign calls are those of `Env`. */
module Entity {
  import opened Wrappers
  import opened Text
  import opened Base64
  import opened Errors
  import opened Attachments
  import opened ImageRequest
  import opened ChatRequest
  import opened Integration

  /** The host's `AITaskEntityFeature` flags. */
  const GenerateDataFlag: bv8 := 1
  const SupportAttachmentsFlag: bv8 := 2
  const GenerateImageFlag: bv8 := 4

  const NameKey := "name"
  const EndpointKey := "endpoint"
  const ApiKeyKey := "api_key"
  const ImageModelKey := "image_model"

  /** Python's truth test on an optional model name. */
  predicate Truthy(m: Option<string>) {
    m.Some? && m.value != ""
  }

  /** `(options.get(key) or config.get(key, "")).strip()`: the model name the
      platform's setup hands to the entity. */
  function SetupModel(options: map<string, string>, config: map<string, string>, key: string): string {
    Strip(if key in options && options[key] != "" then options[key] else if key in config then config[key] else "")
  }

  /** The `chat_model` / `image_model` properties: a non-empty option, else the
      entry's data (even when empty there), else the name stored at construction;
      stripped, and `None` when that choice is empty. */
  function EffectiveModel(options: map<string, string>, data: map<string, string>, key: string, stored: string)
    : Option<string>
  {
    var raw := if key in options && options[key] != "" then options[key] else if key in data then data[key] else stored;
    if raw != "" then Some(Strip(raw)) else None
  }

  /** The priority order, and what the lookup gives: the stripped text of the first
      source that applies; an empty text gives `None`, and a whitespace-only one gives
      the empty name, which is just as falsy. */
  lemma EffectiveModelPriority(options: map<string, string>, data: map<string, string>, key: string, stored: string)
    ensures key in options && options[key] != "" ==> EffectiveModel(options, data, key, stored) == Some(Strip(options[key]))
    ensures (key !in options || options[key] == "") && key in data ==>
      EffectiveModel(options, data, key, stored) == (if data[key] == "" then None else Some(Strip(data[key])))
    ensures (key !in options || options[key] == "") && key !in data ==>
      EffectiveModel(options, data, key, stored) == (if stored == "" then None else Some(Strip(stored)))
    ensures var m := EffectiveModel(options, data, key, stored); m.Some? ==> Strip(m.value) == m.value
  {
    var raw := if key in options && options[key] != "" then options[key] else if key in data then data[key] else stored;
    StripIdempotent(raw);
  }

  /** When the entity's stored name came from setup over the same maps, the
      property agrees with it up to `None` versus `""`: both are falsy together. */
  lemma SetupModelAgrees(options: map<string, string>, data: map<string, string>, key: string)
    ensures var stored := SetupModel(options, data, key);
      && EffectiveModel(options, data, key, stored).GetOr("") == stored
      && (Truthy(EffectiveModel(options, data, key, stored)) <==> stored != "")
  {
    var raw := if key in options && options[key] != "" then options[key] else if key in data then data[key] else "";
    var stored := Strip(raw);
    assert SetupModel(options, data, key) == stored;
    if raw == "" {
      assert stored == [];
    }
    if (key in options && options[key] != "") || key in data {
      assert EffectiveModel(options, data, key, stored) == if raw != "" then Some(stored) else None;
    } else {
      assert EffectiveModel(options, data, key, stored) == None;
    }
  }

  /** The feature set for which models are configured. */
  function FeatureMask(hasChatModel: bool, hasImageModel: bool): bv8 {
    (if hasChatModel then GenerateDataFlag | SupportAttachmentsFlag else 0)
      | (if hasImageModel then GenerateImageFlag else 0)
  }

  /** Data generation and attachments are offered exactly when there is a chat
      model, image generation exactly when there is an image model, and nothing else. */
  lemma FeatureBits(hasChatModel: bool, hasImageModel: bool)
    ensures FeatureMask(hasChatModel, hasImageModel) & GenerateDataFlag != 0 <==> hasChatModel
    ensures FeatureMask(hasChatModel, hasImageModel) & SupportAttachmentsFlag != 0 <==> hasChatModel
    ensures FeatureMask(hasChatModel, hasImageModel) & GenerateImageFlag != 0 <==> hasImageModel
    ensures FeatureMask(hasChatModel, hasImageModel) & 0xF8 == 0
  {
  }

  /** The request headers: the image endpoint takes the key in an `api-key`
      header, the chat endpoint as a bearer token. */
  function ImageHeaders(apiKey: string): map<string, string> {
    map["Content-Type" := "application/json", "api-key" := apiKey]
  }

  function ChatHeaders(apiKey: string): map<string, string> {
    map["Content-Type" := "application/json", "Authorization" := "Bearer " + apiKey]
  }

  /** The two posts to the service: URL, headers, payload and `api-version` in, reply out. */
  datatype Service = Service(
    postImage: (string, map<string, string>, Payload, string) -> ImageReply,
    postChat: (string, map<string, string>, ChatPayload, string) -> ChatReply
  )

  /** `GenImageTaskResult`. */
  datatype ImageTaskResult = ImageTaskResult(
    imageData: seq<Byte>, conversationId: string, mimeType: string,
    width: int, height: int, model: string, revisedPrompt: string)

  /** `GenDataTaskResult`. */
  datatype DataTaskResult = DataTaskResult(conversationId: string, data: TaskData)

  /** The request of an image task: URL, payload and `api-version` for the first
      user instruction, or the error raised before anything is posted. */
  function ImageRequestFor(imageModel: Option<string>, log: seq<ChatContent>, endpoint: string)
    : Result<(string, Payload, string), TaskError>
  {
    if !Truthy(imageModel) then Failure(NoImageModel)
    else
      match Instruction(FirstUserMessage(log))
      case Failure(e) => Failure(e)
      case Success(prompt) =>
        var model := imageModel.value;
        Success((DeploymentUrl(endpoint, model, "images/generations"),
                 BaseFields(prompt, model) + ProfileFields(model), ApiVersion(model)))
  }

  /** What `_async_generate_image` makes of the service's reply to `payload`. */
  function ImageReplyResult(model: string, payload: Payload, prompt: string, reply: ImageReply,
                            conversationId: string, httpGet: string -> HttpGet)
    : Result<ImageTaskResult, TaskError>
    requires "size" in payload ==> payload["size"].Str?
  {
    match reply
    case PostRaised(clientError, reason) => Failure(RaiseError(clientError, reason))
    case Reply(status, text, body) =>
      if status != 200 then Failure(StatusError(status, text, model))
      else
        match ShapeBody(body, prompt, httpGet)
        case Failure(e) => Failure(e)
        case Success((data, revised)) =>
          var (width, height) := Dimensions(SizeText(payload));
          Success(ImageTaskResult(data, conversationId, ImageMime(model, payload), width, height, model, revised))
  }

  /** A result carries the model, the size read from the payload, its MIME type and
      the bytes and caption of the reply's first image; a failed status is reported
      by `StatusError`, and a raise of the post is rewrapped only when it is a client error. */
  lemma ImageReplyFacts(model: string, payload: Payload, prompt: string, reply: ImageReply,
                        conversationId: string, httpGet: string -> HttpGet)
    requires "size" in payload ==> payload["size"].Str?
    ensures var r := ImageReplyResult(model, payload, prompt, reply, conversationId, httpGet);
      && (reply.PostRaised? && reply.clientError ==> r == Failure(Communication(reply.reason)))
      && (reply.PostRaised? && !reply.clientError ==> r == Failure(Uncaught(reply.reason)))
      && (reply.Reply? && reply.status != 200 ==> r == Failure(StatusError(reply.status, reply.text, model)))
      && (r.Success? ==>
            && reply.Reply? && reply.status == 200
            && ShapeBody(reply.body, prompt, httpGet) == Success((r.value.imageData, r.value.revisedPrompt))
            && (r.value.width, r.value.height) == Dimensions(SizeText(payload))
            && r.value.mimeType == ImageMime(model, payload)
            && r.value.model == model && r.value.conversationId == conversationId)
  {
  }

  /** What `_async_generate_image` returns. */
  function ImageTask(imageModel: Option<string>, log: seq<ChatContent>, conversationId: string,
                     endpoint: string, apiKey: string, env: Env, service: Service)
    : Result<ImageTaskResult, TaskError>
  {
    match ImageRequestFor(imageModel, log, endpoint)
    case Failure(e) => Failure(e)
    case Success((url, payload, apiVersion)) =>
      var prompt := Instruction(FirstUserMessage(log)).value;
      ImageReplyResult(imageModel.value, payload, prompt, service.postImage(url, ImageHeaders(apiKey), payload, apiVersion),
                       conversationId, env.httpGet)
  }

  /** An image task fails before posting without a model or an instruction. */
  lemma ImageTaskFailsEarly(imageModel: Option<string>, log: seq<ChatContent>, conversationId: string,
                            endpoint: string, apiKey: string, env: Env, service: Service)
    ensures !Truthy(imageModel) ==> ImageTask(imageModel, log, conversationId, endpoint, apiKey, env, service) == Failure(NoImageModel)
    ensures Truthy(imageModel) && (FirstUserMessage(log).None? || FirstUserMessage(log) == Some("")) ==>
      ImageTask(imageModel, log, conversationId, endpoint, apiKey, env, service) == Failure(NoInstructions)
  {
  }

  /** When an image task posts, it posts the first user instruction and the model
      to the model's deployment, with the model's `api-version`. */
  lemma ImageRequestFacts(imageModel: Option<string>, log: seq<ChatContent>, endpoint: string)
    ensures ImageRequestFor(imageModel, log, endpoint).Success? <==>
      Truthy(imageModel) && FirstUserMessage(log).Some? && FirstUserMessage(log).value != ""
    ensures ImageRequestFor(imageModel, log, endpoint).Success? ==>
      var (url, payload, apiVersion) := ImageRequestFor(imageModel, log, endpoint).value;
      && url == endpoint + "/openai/deployments/" + imageModel.value + "/images/generations"
      && payload == BaseFields(FirstUserMessage(log).value, imageModel.value) + ProfileFields(imageModel.value)
      && payload["prompt"] == Str(FirstUserMessage(log).value)
      && payload["model"] == Str(imageModel.value)
      && apiVersion == ApiVersion(imageModel.value)
  {
    if ImageRequestFor(imageModel, log, endpoint).Success? {
      ProfileKeepsRequest(FirstUserMessage(log).value, imageModel.value);
    }
  }

  /** A generated image is a 1024x1024 PNG from the configured model. */
  lemma ImageTaskResultFacts(imageModel: Option<string>, log: seq<ChatContent>, conversationId: string,
                             endpoint: string, apiKey: string, env: Env, service: Service)
    ensures var r := ImageTask(imageModel, log, conversationId, endpoint, apiKey, env, service);
      r.Success? ==>
        && Truthy(imageModel) && r.value.model == imageModel.value
        && r.value.width == 1024 && r.value.height == 1024 && r.value.mimeType == "image/png"
        && r.value.conversationId == conversationId
  {
    var req := ImageRequestFor(imageModel, log, endpoint);
    if req.Success? {
      var (url, payload, apiVersion) := req.value;
      var prompt := FirstUserMessage(log).value;
      var model := imageModel.value;
      assert payload == BaseFields(prompt, model) + ProfileFields(model);
      ProfileKeepsRequest(prompt, model);
      ProfileDimensions(prompt, model);
      ProfileMime(prompt, model);
      ImageReplyFacts(model, payload, prompt, service.postImage(url, ImageHeaders(apiKey), payload, apiVersion),
                      conversationId, env.httpGet);
    }
  }

  /** The request of a data task: URL and payload for the last user instruction and
      the attachments of the log and the task, or the error raised before posting. */
  function DataRequestFor(chatModel: string, log: seq<ChatContent>, taskAttachments: Option<AttachmentsAttr>,
                          endpoint: string, env: Env)
    : Result<(string, ChatPayload), TaskError>
  {
    match Instruction(LastUserMessage(log))
    case Failure(e) => Failure(e)
    case Success(text) =>
      var attachments := LogAttachments(log) + TaskAttachments(taskAttachments);
      var deployment := DeploymentFor(chatModel, |attachments| > 0);
      Success((DeploymentUrl(endpoint, deployment, "chat/completions"),
               ChatPayloadFor(MessageFor(text, attachments, env))))
  }

  /** What `_async_generate_data` returns. */
  function DataTask(chatModel: Option<string>, log: seq<ChatContent>, taskAttachments: Option<AttachmentsAttr>,
                    structured: bool, conversationId: string, endpoint: string, apiKey: string,
                    env: Env, service: Service, parseJson: string -> Option<Json>)
    : Result<DataTaskResult, TaskError>
  {
    if !Truthy(chatModel) then Failure(NoChatModel)
    else
      match DataRequestFor(chatModel.value, log, taskAttachments, endpoint, env)
      case Failure(e) => Failure(e)
      case Success((url, payload)) =>
        match ShapeChatReply(service.postChat(url, ChatHeaders(apiKey), payload, ChatApiVersion), structured, parseJson)
        case Failure(e) => Failure(e)
        case Success(data) => Success(DataTaskResult(conversationId, data))
  }

  /** A data task posts its last user instruction: as plain text when nothing is
      attached, to the configured deployment; with attachments, as a text part
      followed by one image part per resolved attachment, to the configured deployment
      when it is a `gpt-4` model and to `gpt-4o` otherwise. */
  lemma DataRequestFacts(chatModel: string, log: seq<ChatContent>, taskAttachments: Option<AttachmentsAttr>,
                         endpoint: string, env: Env)
    ensures DataRequestFor(chatModel, log, taskAttachments, endpoint, env).Failure? <==>
      LastUserMessage(log).None? || LastUserMessage(log) == Some("")
    ensures DataRequestFor(chatModel, log, taskAttachments, endpoint, env).Success? ==>
      var (url, payload) := DataRequestFor(chatModel, log, taskAttachments, endpoint, env).value;
      var text := LastUserMessage(log).value;
      var attachments := LogAttachments(log) + TaskAttachments(taskAttachments);
      && payload.role == "user" && payload.maxTokens == 1000
      && (attachments == [] ==>
            url == endpoint + "/openai/deployments/" + chatModel + "/chat/completions"
            && payload.content == PlainText(text))
      && (attachments != [] ==>
            && url == endpoint + "/openai/deployments/"
                 + (if StartsWith(chatModel, "gpt-4") then chatModel else VisionFallback) + "/chat/completions"
            && payload.content == Parts([TextPart(text)] + ImageParts(attachments, env))
            && |payload.content.parts| <= 1 + |attachments|)
  {
    var attachments := LogAttachments(log) + TaskAttachments(taskAttachments);
    var instruction := Instruction(LastUserMessage(log));
    if instruction.Success? {
      var text := instruction.value;
      var url := DeploymentUrl(endpoint, DeploymentFor(chatModel, |attachments| > 0), "chat/completions");
      var content := MessageFor(text, attachments, env);
      assert DataRequestFor(chatModel, log, taskAttachments, endpoint, env) == Success((url, ChatPayloadFor(content)));
      ChatRequestShape(chatModel, text, attachments, endpoint, env);
    }
  }

  /** The URL and message content of a chat request for an instruction and its attachments. */
  lemma ChatRequestShape(chatModel: string, text: string, attachments: seq<Attachment>, endpoint: string, env: Env)
    ensures var url := DeploymentUrl(endpoint, DeploymentFor(chatModel, |attachments| > 0), "chat/completions");
      var content := MessageFor(text, attachments, env);
      && (attachments == [] ==>
            url == endpoint + "/openai/deployments/" + chatModel + "/chat/completions"
            && content == PlainText(text))
      && (attachments != [] ==>
            && url == endpoint + "/openai/deployments/"
                 + (if StartsWith(chatModel, "gpt-4") then chatModel else VisionFallback) + "/chat/completions"
            && content == Parts([TextPart(text)] + ImageParts(attachments, env))
            && |content.parts| <= 1 + |attachments|)
  {
    var d := DeploymentFor(chatModel, |attachments| > 0);
    assert d == if attachments != [] && !StartsWith(chatModel, "gpt-4") then VisionFallback else chatModel;
    CompletionsUrl(endpoint, d);
    ImagePartsCount(attachments, env);
  }

  /** `f"{endpoint}/openai/deployments/{deployment}/chat/completions"`. */
  lemma CompletionsUrl(endpoint: string, deployment: string)
    ensures DeploymentUrl(endpoint, deployment, "chat/completions")
      == endpoint + "/openai/deployments/" + deployment + "/chat/completions"
  {
    assert "/" + "chat/completions" == "/chat/completions";
  }

  /** A data task without a chat model fails before anything else, and a text
      result carries the stripped first choice. */
  lemma DataTaskFacts(chatModel: Option<string>, log: seq<ChatContent>, taskAttachments: Option<AttachmentsAttr>,
                      structured: bool, conversationId: string, endpoint: string, apiKey: string,
                      env: Env, service: Service, parseJson: string -> Option<Json>)
    ensures !Truthy(chatModel) ==>
      DataTask(chatModel, log, taskAttachments, structured, conversationId, endpoint, apiKey, env, service, parseJson)
        == Failure(NoChatModel)
    ensures var r := DataTask(chatModel, log, taskAttachments, structured, conversationId, endpoint, apiKey, env, service, parseJson);
      r.Success? ==> r.value.conversationId == conversationId && (structured <==> r.value.data.StructuredData?)
    ensures var r := DataTask(chatModel, log, taskAttachments, structured, conversationId, endpoint, apiKey, env, service, parseJson);
      r.Success? && r.value.data.TextData? ==> Strip(r.value.data.text) == r.value.data.text
  {
    if Truthy(chatModel) {
      var request := DataRequestFor(chatModel.value, log, taskAttachments, endpoint, env);
      if request.Success? {
        var (url, payload) := request.value;
        var reply := service.postChat(url, ChatHeaders(apiKey), payload, ChatApiVersion);
        var shaped := ShapeChatReply(reply, structured, parseJson);
        assert DataTask(chatModel, log, taskAttachments, structured, conversationId, endpoint, apiKey, env, service, parseJson)
          == if shaped.Failure? then Failure(shaped.error) else Success(DataTaskResult(conversationId, shaped.value));
        ChatResultFacts(reply, structured, parseJson);
      }
    }
  }

  /** The conversation a task runs in; the image task appends to it. */
  class ChatLog {
    const conversationId: string
    var content: seq<ChatContent>

    constructor(conversationId: string, content: seq<ChatContent>)
      ensures this.conversationId == conversationId && this.content == content
    {
      this.conversationId := conversationId;
      this.content := content;
    }

    /** `async_add_assistant_content_without_tools`. */
    method AddAssistantContent(agentId: string, text: string)
      modifies this
      ensures content == old(content) + [AssistantContent(agentId, text)]
    {
      content := content + [AssistantContent(agentId, text)];
    }
  }

  /** `AzureAITaskEntity`. */
  class TaskEntity {
    const name: string
    const endpoint: string
    const apiKey: string
    const storedChatModel: string
    const storedImageModel: string
    const entry: ConfigEntry
    const uniqueId: string
    const attrSupportedFeatures: bv8

    /** `__init__`: the endpoint loses its trailing slashes, the unique id is
        derived from the entry id, and the features are accumulated from the two
        model names. */
    constructor(name: string, endpoint: string, apiKey: string, chatModel: string, imageModel: string,
                entry: ConfigEntry)
      ensures this.name == name && this.apiKey == apiKey && this.entry == entry
      ensures this.storedChatModel == chatModel && this.storedImageModel == imageModel
      ensures this.endpoint == RStripChar(endpoint, '/')
      ensures this.uniqueId == Domain + "_" + entry.entryId
      ensures this.attrSupportedFeatures == FeatureMask(chatModel != "", imageModel != "")
    {
      this.name := name;
      this.endpoint := RStripChar(endpoint, '/');
      this.apiKey := apiKey;
      this.storedChatModel := chatModel;
      this.storedImageModel := imageModel;
      this.entry := entry;
      this.uniqueId := Domain + "_" + entry.entryId;
      var features: bv8 := 0;
      if chatModel != "" {
        features := features | GenerateDataFlag;
      }
      if imageModel != "" {
        features := features | GenerateImageFlag;
      }
      if chatModel != "" {
        features := features | SupportAttachmentsFlag;
      }
      this.attrSupportedFeatures := features;
    }

    /** The `chat_model` property. */
    function ChatModel(): Option<string>
      reads entry
    {
      EffectiveModel(entry.options, entry.data, ChatModelKey, storedChatModel)
    }

    /** The `image_model` property. */
    function ImageModel(): Option<string>
      reads entry
    {
      EffectiveModel(entry.options, entry.data, ImageModelKey, storedImageModel)
    }

    /** The `supported_features` property, accumulated from the current model lookups. */
    method SupportedFeatures() returns (features: bv8)
      ensures features == FeatureMask(Truthy(ChatModel()), Truthy(ImageModel()))
    {
      features := 0;
      var chatModel := ChatModel();
      if chatModel.Some? && chatModel.value != "" {
        features := features | GenerateDataFlag;
        features := features | SupportAttachmentsFlag;
      }
      var imageModel := ImageModel();
      if imageModel.Some? && imageModel.value != "" {
        features := features | GenerateImageFlag;
      }
    }

    /** The `supports_attachments` (and `supports_media_attachments`) property. */
    predicate SupportsAttachments()
      reads entry
    {
      Truthy(ChatModel())
    }

    /** `_async_generate_image`: on success the log gains the assistant's
        `Generated image: ...` entry; on failure it is unchanged. */
    method GenerateImage(agentId: string, log: ChatLog, env: Env, service: Service)
      returns (r: Result<ImageTaskResult, TaskError>)
      modifies log
      ensures r == ImageTask(ImageModel(), old(log.content), log.conversationId, endpoint, apiKey, env, service)
      ensures log.content == old(log.content)
        + (if r.Success? then [AssistantContent(agentId, "Generated image: " + r.value.revisedPrompt)] else [])
    {
      var imageModel := ImageModel();
      if imageModel.None? || imageModel.value == "" {
        return Failure(NoImageModel);
      }
      var userMessage := FirstInstruction(log.content);
      var instruction := Instruction(userMessage);
      if instruction.Failure? {
        return Failure(instruction.error);
      }
      var model := imageModel.value;
      var payload, apiVersion := BuildPayload(instruction.value, model);
      var url := DeploymentUrl(endpoint, model, "images/generations");
      assert ImageRequestFor(imageModel, log.content, endpoint) == Success((url, payload, apiVersion));
      var reply := service.postImage(url, ImageHeaders(apiKey), payload, apiVersion);
      assert ImageTask(imageModel, log.content, log.conversationId, endpoint, apiKey, env, service)
        == ImageReplyResult(model, payload, instruction.value, reply, log.conversationId, env.httpGet);
      r := ReadImageReply(model, payload, instruction.value, reply, log.conversationId, env);
      if r.Success? {
        log.AddAssistantContent(agentId, "Generated image: " + r.value.revisedPrompt);
      }
    }

    /** The part of `_async_generate_image` after the post: the status, the body and
        the size and MIME type read back from the payload. */
    method ReadImageReply(model: string, payload: Payload, prompt: string, reply: ImageReply,
                          conversationId: string, env: Env)
      returns (r: Result<ImageTaskResult, TaskError>)
      requires "size" in payload ==> payload["size"].Str?
      ensures r == ImageReplyResult(model, payload, prompt, reply, conversationId, env.httpGet)
    {
      if reply.PostRaised? {
        return Failure(RaiseError(reply.clientError, reply.reason));
      }
      if reply.status != 200 {
        return Failure(StatusError(reply.status, reply.text, model));
      }
      var shaped := ShapeBody(reply.body, prompt, env.httpGet);
      if shaped.Failure? {
        return Failure(shaped.error);
      }
      var (imageData, revisedPrompt) := shaped.value;
      var width, height := ImageDimensions(payload);
      var mimeType := ImageMime(model, payload);
      r := Success(ImageTaskResult(imageData, conversationId, mimeType, width, height, model, revisedPrompt));
    }

    /** `_async_generate_data`; the log is only read. */
    method GenerateData(log: ChatLog, taskAttachments: Option<AttachmentsAttr>, structured: bool,
                        env: Env, service: Service, parseJson: string -> Option<Json>)
      returns (r: Result<DataTaskResult, TaskError>)
      ensures r == DataTask(ChatModel(), log.content, taskAttachments, structured, log.conversationId,
                            endpoint, apiKey, env, service, parseJson)
    {
      var chatModel := ChatModel();
      if chatModel.None? || chatModel.value == "" {
        return Failure(NoChatModel);
      }
      var userMessage, attachments := CollectInputs(log.content, taskAttachments);
      var instruction := Instruction(userMessage);
      if instruction.Failure? {
        return Failure(instruction.error);
      }
      var hasAttachments := |attachments| > 0;
      var content := BuildMessageContent(instruction.value, attachments, env);
      var payload := ChatPayloadFor(content);
      var deployment := DeploymentFor(chatModel.value, hasAttachments);
      var url := DeploymentUrl(endpoint, deployment, "chat/completions");
      var reply := service.postChat(url, ChatHeaders(apiKey), payload, ChatApiVersion);
      var shaped := ShapeChatReply(reply, structured, parseJson);
      if shaped.Failure? {
        return Failure(shaped.error);
      }
      r := Success(DataTaskResult(log.conversationId, shaped.value));
    }
  }

  /** Attachments are supported exactly when the attachments flag is offered. */
  lemma AttachmentsFlagAgrees(e: TaskEntity)
    ensures e.SupportsAttachments() <==>
      FeatureMask(Truthy(e.ChatModel()), Truthy(e.ImageModel())) & SupportAttachmentsFlag != 0
  {
    FeatureBits(Truthy(e.ChatModel()), Truthy(e.ImageModel()));
  }

  /** An entity set up from an entry whose maps have not changed since offers the
      same features through its property as it fixed at construction. */
  lemma SetupFeaturesAgree(options: map<string, string>, data: map<string, string>)
    ensures var chat, image := SetupModel(options, data, ChatModelKey), SetupModel(options, data, ImageModelKey);
      FeatureMask(Truthy(EffectiveModel(options, data, ChatModelKey, chat)),
                  Truthy(EffectiveModel(options, data, ImageModelKey, image)))
        == FeatureMask(chat != "", image != "")
  {
    SetupModelAgrees(options, data, ChatModelKey);
    SetupModelAgrees(options, data, ImageModelKey);
  }

  /** The outcome of the platform's `async_setup_entry`: `ConfigMissing` is the
      `KeyError` of a missing registration or a missing `name`, `endpoint` or
      `api_key`; `NoModels` is the silent return when both models are blank. */
  datatype PlatformSetup = ConfigMissing | NoModels | EntityAdded(entity: TaskEntity)

  /** The platform's `async_setup_entry`: the entry's stored data must be
      registered (`KeyError` otherwise); no entity is added when both models are
      blank; otherwise the name, endpoint and key must be in the data. */
  method SetupPlatform(hass: HassData, entry: ConfigEntry) returns (r: PlatformSetup)
    ensures Domain !in hass.domains || entry.entryId !in hass.domains[Domain] ==> r == ConfigMissing
    ensures Domain in hass.domains && entry.entryId in hass.domains[Domain] ==>
      var config := hass.domains[Domain][entry.entryId];
      var chat, image := SetupModel(entry.options, config, ChatModelKey), SetupModel(entry.options, config, ImageModelKey);
      && (chat == "" && image == "" ==> r == NoModels)
      && ((chat != "" || image != "") && !(NameKey in config && EndpointKey in config && ApiKeyKey in config) ==>
            r == ConfigMissing)
      && (r.EntityAdded? <==> (chat != "" || image != "") && NameKey in config && EndpointKey in config && ApiKeyKey in config)
      && (r.EntityAdded? ==>
            && fresh(r.entity) && r.entity.entry == entry
            && r.entity.storedChatModel == chat && r.entity.storedImageModel == image
            && r.entity.name == config[NameKey] && r.entity.apiKey == config[ApiKeyKey]
            && r.entity.endpoint == RStripChar(config[EndpointKey], '/'))
  {
    if Domain !in hass.domains || entry.entryId !in hass.domains[Domain] {
      return ConfigMissing;
    }
    var config := hass.domains[Domain][entry.entryId];
    var chatModel := SetupModel(entry.options, config, ChatModelKey);
    var imageModel := SetupModel(entry.options, config, ImageModelKey);
    if chatModel == "" && imageModel == "" {
      return NoModels;
    }
    if NameKey !in config || EndpointKey !in config || ApiKeyKey !in config {
      return ConfigMissing;
    }
    var entity := new TaskEntity(config[NameKey], config[EndpointKey], config[ApiKeyKey], chatModel, imageModel, entry);
    r := EntityAdded(entity);
  }
}
