/** The pieces of `_async_generate_data` and `_async_generate_image` that read the
    chat log and build the chat-completion request: the instruction and the
    attachments gathered from the log and the task, the plain or multi-part
    message, the deployment used for attachments, and the shaping of the reply. */
module ChatRequest {
  import opened Wrappers
  import opened Text
  import opened Base64
  import opened Errors
  import opened Attachments

  /** The value of an `attachments` attribute: a list is spliced in, anything else
      is taken as one attachment. */
  datatype AttachmentsAttr = AttachmentList(items: seq<Attachment>) | SingleAttachment(item: Attachment)

  /** An entry of the chat log, as the collection loop inspects it: a
      `UserContent` with its text, an `AssistantContent` (which carries none of
      the attributes the loop looks for), or any other entry with the attributes
      it may carry (`None` where the entry has no such attribute; the inner option
      of `mediaContentId` is the attribute's own value). */
  datatype ChatContent =
    | UserContent(content: string)
    | AssistantContent(agentId: string, content: string)
    | OtherContent(mediaContentId: Option<Option<string>>, mediaContentType: Option<string>,
                   attachments: Option<AttachmentsAttr>, contentType: Option<string>)

  /** A log entry handed to `_process_attachment` as it stands. */
  function AsAttachment(c: ChatContent): Attachment
    requires c.OtherContent?
  {
    Attachment(if c.mediaContentId.Some? then c.mediaContentId.value else None, c.mediaContentType)
  }

  function AttrItems(attr: AttachmentsAttr): seq<Attachment> {
    match attr
    case AttachmentList(items) => items
    case SingleAttachment(item) => [item]
  }

  /** What one log entry adds to the attachment list; the first test that holds wins. */
  function EntryAttachments(c: ChatContent): seq<Attachment> {
    match c
    case UserContent(_) => []
    case AssistantContent(_, _) => []
    case OtherContent(id, _, attrs, contentType) =>
      if id.Some? then [AsAttachment(c)]
      else if attrs.Some? then AttrItems(attrs.value)
      else if contentType.Some? && StartsWith(contentType.value, "image/") then [AsAttachment(c)]
      else []
  }

  /** The instruction of a data task: the text of the LAST user entry (the loop has no `break`). */
  function LastUserMessage(log: seq<ChatContent>): Option<string> {
    if log == [] then None
    else if log[|log| - 1].UserContent? then Some(log[|log| - 1].content)
    else LastUserMessage(log[..|log| - 1])
  }

  /** The attachments of the log, entry by entry, in log order. */
  function LogAttachments(log: seq<ChatContent>): seq<Attachment> {
    if log == [] then [] else LogAttachments(log[..|log| - 1]) + EntryAttachments(log[|log| - 1])
  }

  /** The task's own `attachments`, added only when present and truthy; an empty list adds nothing. */
  function TaskAttachments(attr: Option<AttachmentsAttr>): seq<Attachment> {
    if attr.Some? then AttrItems(attr.value) else []
  }

  /** The instruction of an image task: the text of the FIRST user entry. */
  function FirstUserMessage(log: seq<ChatContent>): Option<string> {
    if log == [] then None
    else if log[0].UserContent? then Some(log[0].content)
    else FirstUserMessage(log[1..])
  }

  /** The collection loop of `_async_generate_data`: `user_message` is reassigned at
      every user entry and the attachment list grows at every other entry; the
      task's attachments come last. */
  method CollectInputs(log: seq<ChatContent>, taskAttachments: Option<AttachmentsAttr>)
    returns (userMessage: Option<string>, attachments: seq<Attachment>)
    ensures userMessage == LastUserMessage(log)
    ensures attachments == LogAttachments(log) + TaskAttachments(taskAttachments)
  {
    userMessage := None;
    attachments := [];
    var i := 0;
    while i < |log|
      invariant 0 <= i <= |log|
      invariant userMessage == LastUserMessage(log[..i])
      invariant attachments == LogAttachments(log[..i])
    {
      var c := log[i];
      assert log[..i + 1][..i] == log[..i];
      if c.UserContent? {
        userMessage := Some(c.content);
      } else if c.AssistantContent? {
        // an assistant entry has none of the attributes tested below
      } else if c.mediaContentId.Some? {
        attachments := attachments + [AsAttachment(c)];
      } else if c.attachments.Some? {
        match c.attachments.value {
          case AttachmentList(items) => attachments := attachments + items;
          case SingleAttachment(item) => attachments := attachments + [item];
        }
      } else if c.contentType.Some? && StartsWith(c.contentType.value, "image/") {
        attachments := attachments + [AsAttachment(c)];
      }
      i := i + 1;
    }
    assert log[..|log|] == log;
    if taskAttachments.Some? {
      match taskAttachments.value {
        case AttachmentList(items) => attachments := attachments + items;
        case SingleAttachment(item) => attachments := attachments + [item];
      }
    }
  }

  /** The instruction loop of `_async_generate_image`, which stops at the first user entry. */
  method FirstInstruction(log: seq<ChatContent>) returns (userMessage: Option<string>)
    ensures userMessage == FirstUserMessage(log)
  {
    userMessage := None;
    var i := 0;
    while i < |log|
      invariant 0 <= i <= |log|
      invariant FirstUserMessage(log) == FirstUserMessage(log[i..])
    {
      if log[i].UserContent? {
        userMessage := Some(log[i].content);
        break;
      }
      assert log[i..][1..] == log[i + 1..];
      i := i + 1;
    }
  }

  /** The last user entry is found: it is a user entry of the log, and no user entry follows it. */
  lemma LastUserMessageIsLast(log: seq<ChatContent>)
    ensures LastUserMessage(log).None? <==> forall i :: 0 <= i < |log| ==> !log[i].UserContent?
    ensures LastUserMessage(log).Some? ==>
      exists i :: 0 <= i < |log| && log[i] == UserContent(LastUserMessage(log).value)
        && forall j :: i < j < |log| ==> !log[j].UserContent?
  {
    NoUserMessage(log);
    if LastUserMessage(log).Some? {
      var i := LastUserMessageFound(log);
    }
  }

  /** No user entry is found exactly when the log holds none. */
  lemma {:induction false} NoUserMessage(log: seq<ChatContent>)
    ensures LastUserMessage(log).None? <==> forall i :: 0 <= i < |log| ==> !log[i].UserContent?
  {
    if log != [] && !log[|log| - 1].UserContent? {
      var init := log[..|log| - 1];
      NoUserMessage(init);
      assert forall i :: 0 <= i < |init| ==> init[i] == log[i];
    }
  }

  /** A user entry that is found sits in the log at `i`, with no user entry after it. */
  lemma {:induction false} LastUserMessageFound(log: seq<ChatContent>) returns (i: nat)
    requires LastUserMessage(log).Some?
    ensures i < |log| && log[i] == UserContent(LastUserMessage(log).value)
    ensures forall j :: i < j < |log| ==> !log[j].UserContent?
  {
    if log[|log| - 1].UserContent? {
      i := |log| - 1;
    } else {
      var init := log[..|log| - 1];
      i := LastUserMessageFound(init);
      assert log[i] == init[i];
      forall j | i < j < |log| ensures !log[j].UserContent? {
        if j < |init| {
          assert log[j] == init[j];
        }
      }
    }
  }

  /** The first user entry is found: it is a user entry of the log, and none precedes it. */
  lemma {:induction false} FirstUserMessageIsFirst(log: seq<ChatContent>)
    ensures FirstUserMessage(log).None? <==> forall i :: 0 <= i < |log| ==> !log[i].UserContent?
    ensures FirstUserMessage(log).Some? ==>
      exists i :: 0 <= i < |log| && log[i] == UserContent(FirstUserMessage(log).value)
        && forall j :: 0 <= j < i ==> !log[j].UserContent?
  {
    if log != [] && !log[0].UserContent? {
      var tail := log[1..];
      FirstUserMessageIsFirst(tail);
      if FirstUserMessage(log).Some? {
        var i :| 0 <= i < |tail| && tail[i] == UserContent(FirstUserMessage(log).value)
          && forall j :: 0 <= j < i ==> !tail[j].UserContent?;
        assert log[i + 1] == tail[i];
      }
    }
  }

  /** Attachments of consecutive parts of the log are concatenated in log order;
      user entries contribute none. */
  lemma {:induction false} LogAttachmentsAppend(a: seq<ChatContent>, b: seq<ChatContent>)
    ensures LogAttachments(a + b) == LogAttachments(a) + LogAttachments(b)
    decreases |b|
  {
    if b == [] {
      assert a + b == a;
    } else {
      var b', x := b[..|b| - 1], b[|b| - 1];
      var s := a + b;
      assert s[..|s| - 1] == a + b' && s[|s| - 1] == x;
      LogAttachmentsAppend(a, b');
      assert LogAttachments(s) == LogAttachments(a + b') + EntryAttachments(x);
      assert LogAttachments(b) == LogAttachments(b') + EntryAttachments(x);
    }
  }

  /** A log of user entries only has no attachments. */
  lemma {:induction false} UserOnlyLogHasNoAttachments(log: seq<ChatContent>)
    requires forall i :: 0 <= i < |log| ==> log[i].UserContent?
    ensures LogAttachments(log) == []
  {
    if log != [] {
      UserOnlyLogHasNoAttachments(log[..|log| - 1]);
    }
  }

  /** `if not user_message`: a missing or empty instruction is an error. */
  function Instruction(userMessage: Option<string>): (r: Result<string, TaskError>)
    ensures r.Success? <==> userMessage.Some? && userMessage.value != ""
    ensures r.Success? ==> r.value == userMessage.value
    ensures r.Failure? ==> r.error == NoInstructions
  {
    if userMessage.Some? && userMessage.value != "" then Success(userMessage.value) else Failure(NoInstructions)
  }

  /** One element of a multi-part chat message. */
  datatype ContentPart = TextPart(text: string) | ImageUrlPart(url: string)

  /** The `content` of the single user message. */
  datatype MessageContent = PlainText(text: string) | Parts(parts: seq<ContentPart>)

  const DataUriPrefix := "data:image/jpeg;base64,"

  /** The image parts for the attachments, in order: one data URI per attachment
      whose processing gave non-empty base64 text (`if image_data`). */
  function ImageParts(attachments: seq<Attachment>, env: Env): seq<ContentPart> {
    if attachments == [] then []
    else
      var r := AttachmentResult(attachments[|attachments| - 1], env);
      ImageParts(attachments[..|attachments| - 1], env)
        + (if r.Some? && r.value != "" then [ImageUrlPart(DataUriPrefix + r.value)] else [])
  }

  /** The message content: the plain instruction without attachments; with
      attachments, the instruction as a text part followed by the image parts. */
  function MessageFor(userMessage: string, attachments: seq<Attachment>, env: Env): MessageContent {
    if |attachments| > 0 then Parts([TextPart(userMessage)] + ImageParts(attachments, env))
    else PlainText(userMessage)
  }

  /** The loop that builds `message_content`, one attachment at a time. */
  method BuildMessageContent(userMessage: string, attachments: seq<Attachment>, env: Env)
    returns (content: MessageContent)
    ensures content == MessageFor(userMessage, attachments, env)
  {
    if |attachments| == 0 {
      return PlainText(userMessage);
    }
    var parts := [TextPart(userMessage)];
    var i := 0;
    while i < |attachments|
      invariant 0 <= i <= |attachments|
      invariant parts == [TextPart(userMessage)] + ImageParts(attachments[..i], env)
    {
      assert attachments[..i + 1][..i] == attachments[..i];
      var imageData := AttachmentResult(attachments[i], env);
      if imageData.Some? && imageData.value != "" {
        parts := parts + [ImageUrlPart(DataUriPrefix + imageData.value)];
      }
      i := i + 1;
    }
    assert attachments[..|attachments|] == attachments;
    content := Parts(parts);
  }

  /** A JPEG data URI around the base64 encoding of some bytes. */
  ghost predicate IsImageDataUri(p: ContentPart) {
    p.ImageUrlPart? && exists data :: p.url == DataUriPrefix + Encode(data)
  }

  /** There is at most one image part per attachment. */
  lemma {:induction false} ImagePartsCount(attachments: seq<Attachment>, env: Env)
    ensures |ImageParts(attachments, env)| <= |attachments|
  {
    if attachments != [] {
      ImagePartsCount(attachments[..|attachments| - 1], env);
    }
  }

  /** Every image part is a JPEG data URI around the base64 encoding of the bytes
      an attachment yielded. */
  lemma {:induction false} ImagePartsAreDataUris(attachments: seq<Attachment>, env: Env)
    ensures forall p :: p in ImageParts(attachments, env) ==> IsImageDataUri(p)
  {
    if attachments != [] {
      var init := attachments[..|attachments| - 1];
      var last := attachments[|attachments| - 1];
      ImagePartsAreDataUris(init, env);
      var r := AttachmentResult(last, env);
      if r.Some? && r.value != "" {
        var data := AttachmentBytes(last, env);
        assert IsImageDataUri(ImageUrlPart(DataUriPrefix + r.value)) by {
          assert ImageUrlPart(DataUriPrefix + r.value).url == DataUriPrefix + Encode(data);
        }
      }
    }
  }

  /** Unresolved attachments are skipped: when none resolves there is no image part,
      yet with attachments the message stays in list form with its text part. */
  lemma {:induction false} NoneResolved(userMessage: string, attachments: seq<Attachment>, env: Env)
    requires |attachments| > 0
    requires forall i :: 0 <= i < |attachments| ==> AttachmentResult(attachments[i], env).None?
    ensures MessageFor(userMessage, attachments, env) == Parts([TextPart(userMessage)])
  {
    NoImageParts(attachments, env);
  }

  lemma {:induction false} NoImageParts(attachments: seq<Attachment>, env: Env)
    requires forall i :: 0 <= i < |attachments| ==> AttachmentResult(attachments[i], env).None?
    ensures ImageParts(attachments, env) == []
  {
    if attachments != [] {
      NoImageParts(attachments[..|attachments| - 1], env);
    }
  }

  /** When every attachment resolves to bytes, there is one image part per
      attachment, in collection order, carrying that attachment's bytes. */
  lemma {:induction false} AllResolved(attachments: seq<Attachment>, env: Env)
    requires forall i :: 0 <= i < |attachments| ==>
      AttachmentResult(attachments[i], env).Some? && AttachmentResult(attachments[i], env).value != ""
    ensures |ImageParts(attachments, env)| == |attachments|
    ensures forall i :: 0 <= i < |attachments| ==>
      ImageParts(attachments, env)[i] == ImageUrlPart(DataUriPrefix + AttachmentResult(attachments[i], env).value)
  {
    if attachments != [] {
      AllResolved(attachments[..|attachments| - 1], env);
    }
  }

  const VisionFallback := "gpt-4o"

  /** The deployment a data task posts to: the chat model, except that attachments
      with a model whose name does not start with `gpt-4` switch to `gpt-4o`. */
  function DeploymentFor(chatModel: string, hasAttachments: bool): string {
    if hasAttachments && !StartsWith(chatModel, "gpt-4") then VisionFallback else chatModel
  }

  /** With attachments the deployment is always a `gpt-4` model, and the configured
      one whenever it already is; without attachments it is the configured one. */
  lemma VisionDeployment(chatModel: string, hasAttachments: bool)
    ensures !hasAttachments ==> DeploymentFor(chatModel, hasAttachments) == chatModel
    ensures hasAttachments ==> StartsWith(DeploymentFor(chatModel, hasAttachments), "gpt-4")
    ensures DeploymentFor(chatModel, hasAttachments) == chatModel
      <==> !hasAttachments || StartsWith(chatModel, "gpt-4") || chatModel == VisionFallback
  {
    assert VisionFallback[..5] == "gpt-4";
  }

  /** The chat-completion request: the single user message, the token limit and the
      sampling temperature (kept as its literal text). */
  datatype ChatPayload = ChatPayload(role: string, content: MessageContent, maxTokens: int, temperature: string)

  const ChatApiVersion := "2024-02-15-preview"

  function ChatPayloadFor(content: MessageContent): ChatPayload {
    ChatPayload("user", content, 1000, "0.7")
  }

  /** `f"{endpoint}/openai/deployments/{deployment}/{operation}"`. */
  function DeploymentUrl(endpoint: string, deployment: string, operation: string): string {
    endpoint + "/openai/deployments/" + deployment + "/" + operation
  }

  /** A JSON value, as `json_loads` returns it. */
  datatype Json =
    | JNull
    | JBool(b: bool)
    | JNumber(literal: string)
    | JString(s: string)
    | JArray(items: seq<Json>)
    | JObject(members: seq<(string, Json)>)

  /** The `data` of a data-task result: the reply text, or the parsed JSON when a structure was asked for. */
  datatype TaskData = TextData(text: string) | StructuredData(value: Json)

  /** The outcome of posting a chat request: a raise (an `aiohttp.ClientError` when
      `clientError` holds), or a status with, for a 200 reply, the `message.content`
      of each choice (`None` without `choices`). */
  datatype ChatReply = ChatRaised(clientError: bool, reason: string) | ChatAnswer(status: int, choices: Option<seq<string>>)

  /** The result of a data task from the reply. */
  function ShapeChatReply(reply: ChatReply, structured: bool, parseJson: string -> Option<Json>)
    : Result<TaskData, TaskError>
  {
    match reply
    case ChatRaised(clientError, reason) => Failure(RaiseError(clientError, reason))
    case ChatAnswer(status, choices) =>
      if status != 200 then Failure(ChatStatus(status))
      else if choices.Some? && |choices.value| > 0 then
        var text := Strip(choices.value[0]);
        if structured then
          match parseJson(text)
          case None => Failure(StructuredResponse)
          case Some(j) => Success(StructuredData(j))
        else Success(TextData(text))
      else Failure(UnexpectedFormat)
  }

  /** A text answer is the first choice without surrounding whitespace; a structured
      answer is what the parser makes of that same stripped text, and a parse
      failure is the structured-response error. */
  lemma ChatAnswerShape(choice: string, rest: seq<string>, structured: bool, parseJson: string -> Option<Json>)
    ensures var r := ShapeChatReply(ChatAnswer(200, Some([choice] + rest)), structured, parseJson);
      && (!structured ==> r == Success(TextData(Strip(choice))) && Strip(r.value.text) == r.value.text)
      && (structured ==> (r.Failure? <==> parseJson(Strip(choice)).None?))
      && (structured && r.Failure? ==> r.error == StructuredResponse)
      && (structured && r.Success? ==> r.value == StructuredData(parseJson(Strip(choice)).value))
  {
    assert ([choice] + rest)[0] == choice;
    StripIdempotent(choice);
  }

  /** Any answer is structured exactly when a structure was asked for, and a text
      answer has no surrounding whitespace. */
  lemma ChatResultFacts(reply: ChatReply, structured: bool, parseJson: string -> Option<Json>)
    ensures var r := ShapeChatReply(reply, structured, parseJson);
      r.Success? ==> ((structured <==> r.value.StructuredData?)
                      && (r.value.TextData? ==> Strip(r.value.text) == r.value.text))
  {
    if reply.ChatAnswer? && reply.status == 200 && reply.choices.Some? && |reply.choices.value| > 0 {
      StripIdempotent(reply.choices.value[0]);
    }
  }

  /** Failures before any text is read: a raise (rewrapped only when it is a client
      error), a status other than 200, and a reply without choices. */
  lemma ChatFailures(reply: ChatReply, structured: bool, parseJson: string -> Option<Json>)
    ensures reply.ChatRaised? && reply.clientError ==>
      ShapeChatReply(reply, structured, parseJson) == Failure(Communication(reply.reason))
    ensures reply.ChatRaised? && !reply.clientError ==>
      ShapeChatReply(reply, structured, parseJson) == Failure(Uncaught(reply.reason))
    ensures reply.ChatAnswer? && reply.status != 200 ==>
      ShapeChatReply(reply, structured, parseJson) == Failure(ChatStatus(reply.status))
    ensures reply.ChatAnswer? && reply.status == 200 && (reply.choices.None? || reply.choices.value == []) ==>
      ShapeChatReply(reply, structured, parseJson) == Failure(UnexpectedFormat)
  {
  }
}
