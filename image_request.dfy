/** The pieces of `_async_generate_image` that decide what is sent and how the
    reply becomes a result: the per-model payload table and `api-version`, the
    width and height read back from the size text, the MIME type, the error raised
    for a failed reply, and the choice between inline base64 and a download URL. */
module ImageRequest {
  import opened Wrappers
  import opened Text
  import opened Base64
  import opened Errors
  import opened Attachments

  /** A JSON scalar in a request payload. */
  datatype Value = Str(s: string) | Int(i: int)

  type Payload = map<string, Value>

  const GptImage1 := "gpt-image-1"
  const DallE3 := "dall-e-3"
  const DallE2 := "dall-e-2"
  const DefaultSize := "1024x1024"

  /** The fields every image request starts with: the prompt, the model, one image. */
  function BaseFields(prompt: string, model: string): Payload {
    map["prompt" := Str(prompt), "model" := Str(model), "n" := Int(1)]
  }

  /** The fields `payload.update(...)` adds for a model; an unknown name gets the
      generic size and quality. */
  function ProfileFields(model: string): Payload {
    if model == GptImage1 then
      map["size" := Str(DefaultSize), "quality" := Str("high"), "output_format" := Str("png"),
          "output_compression" := Int(100)]
    else if model == DallE3 then
      map["size" := Str(DefaultSize), "quality" := Str("standard"), "style" := Str("vivid"),
          "response_format" := Str("b64_json")]
    else if model == DallE2 then
      map["size" := Str(DefaultSize), "response_format" := Str("b64_json")]
    else
      map["size" := Str(DefaultSize), "quality" := Str("standard")]
  }

  /** The `api-version` query parameter for a model. */
  function ApiVersion(model: string): string {
    if model == GptImage1 then "2025-04-01-preview" else "2024-10-21"
  }

  /** The payload and `api-version` of an image request: the base fields, then the
      model's fields merged in with `dict.update`. */
  method BuildPayload(prompt: string, model: string) returns (payload: Payload, apiVersion: string)
    ensures payload == BaseFields(prompt, model) + ProfileFields(model)
    ensures apiVersion == ApiVersion(model)
    ensures "prompt" in payload && payload["prompt"] == Str(prompt)
    ensures "model" in payload && payload["model"] == Str(model)
    ensures "n" in payload && payload["n"] == Int(1)
    ensures "size" in payload && payload["size"] == Str(DefaultSize)
  {
    payload := map["prompt" := Str(prompt), "model" := Str(model), "n" := Int(1)];
    if model == GptImage1 {
      payload := payload + map["size" := Str(DefaultSize), "quality" := Str("high"),
        "output_format" := Str("png"), "output_compression" := Int(100)];
      apiVersion := "2025-04-01-preview";
    } else if model == DallE3 {
      payload := payload + map["size" := Str(DefaultSize), "quality" := Str("standard"),
        "style" := Str("vivid"), "response_format" := Str("b64_json")];
      apiVersion := "2024-10-21";
    } else if model == DallE2 {
      payload := payload + map["size" := Str(DefaultSize), "response_format" := Str("b64_json")];
      apiVersion := "2024-10-21";
    } else {
      payload := payload + map["size" := Str(DefaultSize), "quality" := Str("standard")];
      apiVersion := "2024-10-21";
    }
  }

  /** No model's fields override the prompt, the model or the image count, and every
      model asks for a 1024x1024 image. */
  lemma ProfileKeepsRequest(prompt: string, model: string)
    ensures var p := BaseFields(prompt, model) + ProfileFields(model);
      && p["prompt"] == Str(prompt) && p["model"] == Str(model) && p["n"] == Int(1)
      && "size" in p && p["size"] == Str(DefaultSize)
      && p.Keys - ProfileFields(model).Keys == {"prompt", "model", "n"}
  {
    var p := BaseFields(prompt, model) + ProfileFields(model);
    assert "prompt" !in ProfileFields(model) && "model" !in ProfileFields(model) && "n" !in ProfileFields(model);
  }

  /** The table row by row: the fields each recognised model adds, and the
      fallback for any other name, which never fails. */
  lemma ProfileTable(model: string)
    ensures model == GptImage1 ==>
      ProfileFields(model).Keys == {"size", "quality", "output_format", "output_compression"}
      && ProfileFields(model)["quality"] == Str("high") && ProfileFields(model)["output_format"] == Str("png")
      && ProfileFields(model)["output_compression"] == Int(100) && ApiVersion(model) == "2025-04-01-preview"
    ensures model == DallE3 ==>
      ProfileFields(model).Keys == {"size", "quality", "style", "response_format"}
      && ProfileFields(model)["quality"] == Str("standard") && ProfileFields(model)["style"] == Str("vivid")
      && ProfileFields(model)["response_format"] == Str("b64_json") && ApiVersion(model) == "2024-10-21"
    ensures model == DallE2 ==>
      ProfileFields(model).Keys == {"size", "response_format"}
      && ProfileFields(model)["response_format"] == Str("b64_json") && ApiVersion(model) == "2024-10-21"
    ensures model !in {GptImage1, DallE3, DallE2} ==>
      ProfileFields(model).Keys == {"size", "quality"}
      && ProfileFields(model)["quality"] == Str("standard") && ApiVersion(model) == "2024-10-21"
  {
  }

  /** The size text of a payload, when it has one. */
  function SizeText(payload: Payload): Option<string>
    requires "size" in payload ==> payload["size"].Str?
  {
    if "size" in payload then Some(payload["size"].s) else None
  }

  /** Width and height read back from the size text: 1024 each by default; the text
      is split on `x`, and only a split into exactly two parts is read, with `int()`
      on each in turn. A rejected first part leaves both defaults; a rejected second
      part leaves the width already read. */
  function Dimensions(size: Option<string>): (int, int) {
    match size
    case None => (1024, 1024)
    case Some(s) => PartsDimensions(Split(s, "x"))
  }

  /** The parts of the size text: read only when there are exactly two. */
  function PartsDimensions(parts: seq<string>): (int, int) {
    if |parts| != 2 then (1024, 1024) else ReadDimensions(ParseInt(parts[0]), ParseInt(parts[1]))
  }

  /** The width and height kept once `int()` has run on each part. */
  function ReadDimensions(w: Option<int>, h: Option<int>): (int, int) {
    match w
    case None => (1024, 1024)
    case Some(w) =>
      match h
      case None => (w, 1024)
      case Some(h) => (w, h)
  }

  /** The width and height of `_async_generate_image`, reassigned as each step succeeds. */
  method ImageDimensions(payload: Payload) returns (width: int, height: int)
    requires "size" in payload ==> payload["size"].Str?
    ensures (width, height) == Dimensions(SizeText(payload))
  {
    width := 1024;
    height := 1024;
    if "size" in payload {
      var s := payload["size"].s;
      assert SizeText(payload) == Some(s);
      var parts := Split(s, "x");
      if |parts| == 2 {
        var w := ParseInt(parts[0]);
        if w.Some? {
          width := w.value;
          var h := ParseInt(parts[1]);
          if h.Some? {
            height := h.value;
          }
          assert (width, height) == ReadDimensions(w, h);
        }
        assert (width, height) == ReadDimensions(w, ParseInt(parts[1]));
      }
      assert (width, height) == PartsDimensions(parts);
    } else {
      assert SizeText(payload) == None;
    }
  }

  /** A size written as `<W>x<H>` reads back as `(W, H)`. */
  lemma DimensionsRoundTrip(w: int, h: int)
    ensures Dimensions(Some(IntToDecimal(w) + "x" + IntToDecimal(h))) == (w, h)
  {
    var a, b := IntToDecimal(w), IntToDecimal(h);
    DecimalHasNoX(w);
    DecimalHasNoX(h);
    SplitAroundChar(a, 'x', b);
    assert a + "x" + b == a + ['x'] + b;
    ParseDecimal(w);
    ParseDecimal(h);
  }

  /** Formatted integers never contain the `x` separator. */
  lemma DecimalHasNoX(n: int)
    ensures 'x' !in IntToDecimal(n)
  {
    var d := NatToDecimal(if n < 0 then -n else n);
    assert forall i :: 0 <= i < |d| ==> d[i] != 'x';
    assert IntToDecimal(n) == if n < 0 then "-" + d else d;
  }

  /** A size text without `x` keeps the defaults. */
  lemma DimensionsWithoutSeparator(s: string)
    requires !Contains(s, "x")
    ensures Dimensions(Some(s)) == (1024, 1024)
  {
    SplitWithoutSeparator(s, "x");
  }

  /** `int()` raises on a trimmed text that starts with neither a sign nor a digit. */
  lemma NonNumericRejected(s: string)
    requires s != [] && !IsSpace(s[0]) && !IsSpace(s[|s| - 1])
    requires !IsDigit(s[0]) && s[0] != '+' && s[0] != '-'
    ensures ParseInt(s) == None
  {
    StripTrimmed(s);
    assert !IsDigitGroups(s);
  }

  /** `int("abc")` raises. */
  lemma LettersRejected()
    ensures ParseInt("abc") == None
  {
    var t := "abc";
    assert t[0] == 'a' && t[|t| - 1] == 'c';
    NonNumericRejected(t);
  }

  /** `int()` rejecting the height after accepting the width keeps the width read. */
  lemma WidthKeptWhenHeightRejected(w: int)
    ensures Dimensions(Some(IntToDecimal(w) + "x" + "abc")) == (w, 1024)
  {
    var a := IntToDecimal(w);
    DecimalHasNoX(w);
    SplitAroundChar(a, 'x', "abc");
    assert a + "x" + "abc" == a + ['x'] + "abc";
    ParseDecimal(w);
    LettersRejected();
  }

  /** Every model's size text reads back as 1024 by 1024. */
  lemma ProfileDimensions(prompt: string, model: string)
    ensures Dimensions(SizeText(BaseFields(prompt, model) + ProfileFields(model))) == (1024, 1024)
  {
    ProfileKeepsRequest(prompt, model);
    assert NatToDecimal(1) == "1";
    assert NatToDecimal(10) == "10";
    assert NatToDecimal(102) == "102";
    assert NatToDecimal(1024) == "1024";
    assert DefaultSize == IntToDecimal(1024) + "x" + IntToDecimal(1024);
    DimensionsRoundTrip(1024, 1024);
  }

  /** A payload value as f-string interpolation prints it. */
  function ValueText(v: Value): string {
    match v
    case Str(s) => s
    case Int(i) => IntToDecimal(i)
  }

  /** The MIME type of the result: `image/<output_format>` (default `png`) for
      `gpt-image-1`, `image/png` for every other model. */
  function ImageMime(model: string, payload: Payload): (mime: string)
    ensures StartsWith(mime, "image/")
  {
    var mime := if model == GptImage1 then
      "image/" + (if "output_format" in payload then ValueText(payload["output_format"]) else "png")
    else "image/png";
    assert mime[..6] == "image/";
    mime
  }

  /** Every payload the table builds yields `image/png`. */
  lemma ProfileMime(prompt: string, model: string)
    ensures ImageMime(model, BaseFields(prompt, model) + ProfileFields(model)) == "image/png"
  {
  }

  /** The `data[0]` entry of an image reply. */
  datatype ImageItem = ImageItem(b64Json: Option<string>, url: Option<string>, revisedPrompt: Option<string>)

  /** The `error` object of an image reply. */
  datatype ApiErrorBody = ApiErrorBody(code: Option<string>, message: Option<string>)

  /** A 200 reply's JSON: a `data` list and an `error` object, each possibly absent. */
  datatype ImageBody = ImageBody(data: Option<seq<ImageItem>>, error: Option<ApiErrorBody>)

  /** The outcome of posting an image request: a raise (an `aiohttp.ClientError` when
      `clientError` holds), or a status with the body text and, for a 200 reply, its JSON. */
  datatype ImageReply = PostRaised(clientError: bool, reason: string) | Reply(status: int, text: string, body: ImageBody)

  /** The error for a reply whose status is not 200; the first test that holds wins. */
  function StatusError(status: int, text: string, model: string): (e: TaskError)
    ensures e.ContentFilterBlocked? <==> Contains(text, "contentFilter")
    ensures e.AuthenticationFailed? <==> !Contains(text, "contentFilter") && status == 401
    ensures e.ModelNotFound? <==> !Contains(text, "contentFilter") && status == 404
    ensures e.ModelNotFound? ==> e.model == model
    ensures e.ImageGenerationStatus? <==> !Contains(text, "contentFilter") && status != 401 && status != 404
    ensures e.ImageGenerationStatus? ==> e.status == status
  {
    if Contains(text, "contentFilter") then ContentFilterBlocked
    else if status == 401 then AuthenticationFailed
    else if status == 404 then ModelNotFound(model)
    else ImageGenerationStatus(status)
  }

  /** The image bytes of `data[0]`: inline base64 when present, else a download of
      its URL, else an error. */
  function ItemBytes(item: ImageItem, httpGet: string -> HttpGet): Result<seq<Byte>, TaskError> {
    if item.b64Json.Some? then
      match Decode(item.b64Json.value)
      case None => Failure(UndecodableImage)
      case Some(data) => Success(data)
    else if item.url.Some? then
      match httpGet(item.url.value)
      case GetRaised(clientError, reason) => Failure(RaiseError(clientError, reason))
      case GetReply(status, body) => if status == 200 then Success(body) else Failure(DownloadFailed(status))
    else Failure(NoImageData)
  }

  /** Inline base64 wins over a URL: the URL is then never fetched, and the bytes are
      those that were encoded. */
  lemma InlineImagePreferred(data: seq<Byte>, url: Option<string>, revised: Option<string>,
                             httpGet: string -> HttpGet)
    ensures ItemBytes(ImageItem(Some(Encode(data)), url, revised), httpGet) == Success(data)
  {
    RoundTrip(data);
  }

  /** An entry with neither field is an error, and a URL is used exactly when there
      is no inline image. */
  lemma ItemWithoutImage(item: ImageItem, httpGet: string -> HttpGet, httpGet': string -> HttpGet)
    ensures item.b64Json.None? && item.url.None? ==> ItemBytes(item, httpGet) == Failure(NoImageData)
    ensures item.b64Json.Some? ==> ItemBytes(item, httpGet) == ItemBytes(item, httpGet')
  {
  }

  /** Without inline data the URL is downloaded: a 200 reply gives its body, another
      status the download error, a client error the communication error, and any
      other raise passes through unwrapped. */
  lemma DownloadOutcomes(item: ImageItem, httpGet: string -> HttpGet)
    requires item.b64Json.None? && item.url.Some?
    ensures var got := httpGet(item.url.value);
      && (got.GetReply? && got.status == 200 ==> ItemBytes(item, httpGet) == Success(got.body))
      && (got.GetReply? && got.status != 200 ==> ItemBytes(item, httpGet) == Failure(DownloadFailed(got.status)))
      && (got.GetRaised? && got.clientError ==> ItemBytes(item, httpGet) == Failure(Communication(got.reason)))
      && (got.GetRaised? && !got.clientError ==> ItemBytes(item, httpGet) == Failure(Uncaught(got.reason)))
  {
  }

  /** What a 200 reply's JSON yields: the image bytes and the caption (the model's
      `revised_prompt`, else the user's prompt), or an error. */
  function ShapeBody(body: ImageBody, prompt: string, httpGet: string -> HttpGet)
    : Result<(seq<Byte>, string), TaskError>
  {
    if body.data.Some? && |body.data.value| > 0 then
      var item := body.data.value[0];
      match ItemBytes(item, httpGet)
      case Failure(e) => Failure(e)
      case Success(data) => Success((data, item.revisedPrompt.GetOr(prompt)))
    else if body.error.Some? then
      var code := body.error.value.code.GetOr("unknown");
      var message := body.error.value.message.GetOr("Unknown error");
      if code == "contentFilter" then Failure(ContentFilter(message)) else Failure(ApiError(code, message))
    else Failure(UnexpectedFormat)
  }

  /** Without a usable `data` list the reply is an error: a content-filter error
      exactly when the error code is `contentFilter`, an API error for any other code
      (`unknown` when absent), and an unexpected-format error without `error`. */
  lemma BodyWithoutData(body: ImageBody, prompt: string, httpGet: string -> HttpGet)
    requires body.data.None? || body.data.value == []
    ensures ShapeBody(body, prompt, httpGet).Failure?
    ensures ShapeBody(body, prompt, httpGet).error.ContentFilter?
      <==> body.error.Some? && body.error.value.code == Some("contentFilter")
    ensures body.error.Some? && body.error.value.code == Some("contentFilter") ==>
      ShapeBody(body, prompt, httpGet).error == ContentFilter(body.error.value.message.GetOr("Unknown error"))
    ensures body.error.Some? && body.error.value.code.Some? && body.error.value.code.value != "contentFilter" ==>
      ShapeBody(body, prompt, httpGet).error
        == ApiError(body.error.value.code.value, body.error.value.message.GetOr("Unknown error"))
    ensures body.error.Some? && body.error.value.code.None? ==>
      ShapeBody(body, prompt, httpGet).error == ApiError("unknown", body.error.value.message.GetOr("Unknown error"))
    ensures body.error.None? ==> ShapeBody(body, prompt, httpGet).error == UnexpectedFormat
  {
  }

  /** With a `data` entry, the caption defaults to the prompt, and the `error` key is ignored. */
  lemma CaptionDefault(item: ImageItem, rest: seq<ImageItem>, error: Option<ApiErrorBody>, prompt: string,
                       httpGet: string -> HttpGet)
    requires ItemBytes(item, httpGet).Success?
    ensures ShapeBody(ImageBody(Some([item] + rest), error), prompt, httpGet)
      == Success((ItemBytes(item, httpGet).value, if item.revisedPrompt.Some? then item.revisedPrompt.value else prompt))
  {
  }
}
