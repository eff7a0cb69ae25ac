/** The ways a task fails. Every variant except `UndecodableImage` and `Uncaught` is
    raised as a `HomeAssistantError` whose text is `Message(e)`; the host shows that
    text to whatever started the task. */
module Errors {
  import opened Text

  datatype TaskError =
    | NoChatModel
    | NoImageModel
    | NoInstructions
      /** non-200 reply to an image request, by precedence */
    | ContentFilterBlocked
    | AuthenticationFailed
    | ModelNotFound(model: string)
    | ImageGenerationStatus(status: int)
      /** 200 reply to an image request whose body is not usable */
    | DownloadFailed(status: int)
    | NoImageData
    | ContentFilter(message: string)
    | ApiError(code: string, message: string)
    | UnexpectedFormat
      /** `aiohttp.ClientError` while talking to the service */
    | Communication(reason: string)
      /** any other exception while talking to the service: the `except` clause
          catches only `aiohttp.ClientError`, so it leaves the task as raised */
    | Uncaught(reason: string)
      /** chat completion failures */
    | ChatStatus(status: int)
    | StructuredResponse
      /** `b64_json` that `base64.b64decode` rejects: a `binascii.Error`, not a
          `HomeAssistantError`, so it leaves the task without a message of its own */
    | UndecodableImage

  /** What a raise inside a request's `try` becomes: a client error is rewrapped
      with the communication message, and anything else passes through. */
  function RaiseError(clientError: bool, reason: string): (e: TaskError)
    ensures e.Communication? <==> clientError
    ensures e.Communication? || e.Uncaught?
    ensures e.reason == reason
  {
    if clientError then Communication(reason) else Uncaught(reason)
  }

  /** The text of the `HomeAssistantError` raised for `e`. */
  function Message(e: TaskError): string
    requires !e.UndecodableImage? && !e.Uncaught?
  {
    match e
    case NoChatModel => "No chat model configured for this entity"
    case NoImageModel => "No image model configured for this entity"
    case NoInstructions => "No task instructions found in chat log"
    case ContentFilterBlocked => "Image generation blocked by content filter"
    case AuthenticationFailed => "Authentication failed - check your API key"
    case ModelNotFound(model) => "Model '" + model + "' not found - check your deployment name"
    case ImageGenerationStatus(status) => "Azure AI image generation error: " + IntToDecimal(status)
    case DownloadFailed(status) => "Failed to download image: " + IntToDecimal(status)
    case NoImageData => "No image data found in response"
    case ContentFilter(message) => "Content filter: " + message
    case ApiError(code, message) => "API error [" + code + "]: " + message
    case UnexpectedFormat => "Unexpected response format from Azure AI"
    case Communication(reason) => "Error communicating with Azure AI: " + reason
    case ChatStatus(status) => "Azure AI API error: " + IntToDecimal(status)
    case StructuredResponse => "Error with Azure AI structured response"
  }

  /** A rejected API key is reported in words of its own: its message is neither the
      transport-failure message nor the generic status message, whatever they carry. */
  lemma AuthenticationMessageDistinct(reason: string, status: int)
    ensures Message(AuthenticationFailed) != Message(Communication(reason))
    ensures Message(AuthenticationFailed) != Message(ImageGenerationStatus(status))
    ensures Message(AuthenticationFailed) != Message(ChatStatus(status))
  {
    var auth := "Authentication failed - check your API key";
    assert Message(AuthenticationFailed) == auth;
    assert auth[0] == 'A' && auth[1] == 'u';
    var d := IntToDecimal(status);
    var comm, image, chat := "Error communicating with Azure AI: ", "Azure AI image generation error: ", "Azure AI API error: ";
    assert (comm + reason)[0] == comm[0] == 'E';
    assert (image + d)[1] == image[1] == 'z';
    assert (chat + d)[1] == chat[1] == 'z';
  }
}
