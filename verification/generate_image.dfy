/** The image-generation tool (`GenerateImageTool`): it reads its
    parameters with defaults, refuses to run without an `api_key`
    credential, sends one request to the Gemini `generateContent` endpoint,
    takes the first inline image of the first candidate out of the JSON
    reply, and reports the outcome as exactly one message: the image as a
    PNG blob, or a failure text.

    The HTTP server and the base64 decoder are parameters: the model says
    which request is sent and what is done with any reply, not how the
    network or the decoder behave. */
module GenerateImage {
  import opened Results
  import opened Json
  import opened Decimal

  newtype Byte = x: int | 0 <= x < 256
  type Bytes = seq<Byte>

  // Parameter defaults of `_invoke`.
  const DefaultPrompt := ""
  const DefaultWidth := 1024
  const DefaultHeight := 1024
  const DefaultModel := "gemini-2.0-flash-exp-image-generation"
  const DefaultQuality := "2k"

  const ApiKeyCredential := "api_key"
  const PngMimeType := "image/png"

  // Fixed texts of the messages and exceptions.
  const MissingKeyText := "错误: 未配置 API Key"
  const FailurePrefix := "图像生成失败: "
  const ApiFailurePrefix := "API 请求失败: "
  const NoImageDataText := "未能从 API 响应中提取图像数据"
  const TypeErrorText := "TypeError"
  const IndexErrorText := "index out of range"

  // Endpoint and request text.
  const UrlPrefix := "https://generativelanguage.googleapis.com/v1beta/models/"
  const UrlSuffix := ":generateContent"
  const PromptLead := "Generate an image: "
  const SizeLead := ". Image size: "
  const QualityLead := ", quality: "

  /** The tool parameters the host passes; `None` is an absent key. */
  datatype ToolParameters = ToolParameters(
    prompt: Option<string>,
    width: Option<int>,
    height: Option<int>,
    model: Option<string>,
    quality: Option<string>)

  /** The parameters after defaults are applied. */
  datatype Settings = Settings(prompt: string, width: int, height: int, model: string, quality: string)

  datatype Request = Request(url: string, headers: map<string, string>, body: Json)

  /** What `requests.post` and `response.json()` come back with: a
      transport exception, or a status, the body text and the body parsed
      as JSON (or the parser's error). */
  datatype HttpOutcome =
    | TransportFailure(detail: string)
    | HttpResponse(status: int, text: string, json: Result<Json, string>)

  type Server = Request -> HttpOutcome

  /** `base64.b64decode`: the bytes, or the text of the error it raises. */
  type Base64Decoder = string -> Result<Bytes, string>

  /** Everything `_call_api` can raise. */
  datatype CallError =
    | Transport(detail: string)
    | ApiRequestFailed(status: int, body: string)
    | JsonDecodeFailed(detail: string)
    | NoImageData
    | Runtime(error: PyError)
    | Base64Failed(detail: string)

  datatype BlobMeta = BlobMeta(mimeType: string, width: int, height: int)

  /** The messages the tool yields to the host. */
  datatype Message = Text(text: string) | Blob(blob: Bytes, meta: BlobMeta)

  /** `tool_parameters.get(key, default)` for the five parameters. */
  function ReadSettings(p: ToolParameters): (s: Settings)
    ensures p.prompt.Some? ==> s.prompt == p.prompt.value
    ensures p.prompt.None? ==> s.prompt == ""
    ensures p.width.Some? ==> s.width == p.width.value
    ensures p.width.None? ==> s.width == 1024
    ensures p.height.Some? ==> s.height == p.height.value
    ensures p.height.None? ==> s.height == 1024
    ensures p.model.Some? ==> s.model == p.model.value
    ensures p.model.None? ==> s.model == "gemini-2.0-flash-exp-image-generation"
    ensures p.quality.Some? ==> s.quality == p.quality.value
    ensures p.quality.None? ==> s.quality == "2k"
  {
    Settings(
      p.prompt.GetOr(DefaultPrompt),
      p.width.GetOr(DefaultWidth),
      p.height.GetOr(DefaultHeight),
      p.model.GetOr(DefaultModel),
      p.quality.GetOr(DefaultQuality))
  }

  /** `self.runtime.credentials.get("api_key", "")`. */
  function ApiKey(credentials: map<string, string>): string {
    if ApiKeyCredential in credentials then credentials[ApiKeyCredential] else ""
  }

  /** The text of what `str(e)` gives for each error. */
  function Describe(e: CallError): string {
    match e
    case Transport(d) => d
    case ApiRequestFailed(status, body) => ApiFailurePrefix + IntToString(status) + " - " + body
    case JsonDecodeFailed(d) => d
    case NoImageData => NoImageDataText
    case Runtime(TypeError) => TypeErrorText
    case Runtime(KeyError(k)) => k
    case Runtime(IndexError) => IndexErrorText
    case Base64Failed(d) => d
  }

  // ---------------------------------------------------------------------
  // Building the request

  /** The instruction text sent as the single prompt part. */
  function PromptText(prompt: string, width: int, height: int, quality: string): string {
    PromptLead + prompt + SizeLead + IntToString(width) + "x" + IntToString(height) + QualityLead + quality
  }

  /** The endpoint for a model. */
  function Url(model: string): string {
    UrlPrefix + model + UrlSuffix
  }

  /** The model an endpoint URL names, if it has the endpoint's form. */
  function ModelOfUrl(url: string): Option<string> {
    if |url| >= |UrlPrefix| + |UrlSuffix| && url[..|UrlPrefix|] == UrlPrefix
       && url[|url| - |UrlSuffix|..] == UrlSuffix
    then Some(url[|UrlPrefix|..|url| - |UrlSuffix|])
    else None
  }

  /** The body: one content with one text part, and a generation
      configuration asking for text and image modalities. */
  function RequestBody(prompt: string, width: int, height: int, quality: string): Json {
    JObject(map[
      "contents" := JArray([
        JObject(map["parts" := JArray([JObject(map["text" := JString(PromptText(prompt, width, height, quality))])])])
      ]),
      "generationConfig" := JObject(map["responseModalities" := JArray([JString("Text"), JString("Image")])])
    ])
  }

  /** The request `_call_api` posts. */
  function BuildRequest(prompt: string, width: int, height: int, model: string, apiKey: string, quality: string): (r: Request)
    ensures ModelOfUrl(r.url) == Some(model)
    ensures r.headers.Keys == {"Content-Type", "x-goog-api-key"}
    ensures r.headers["x-goog-api-key"] == apiKey && r.headers["Content-Type"] == "application/json"
  {
    var url := Url(model);
    assert url[..|UrlPrefix|] == UrlPrefix;
    assert url[|url| - |UrlSuffix|..] == UrlSuffix;
    assert url[|UrlPrefix|..|url| - |UrlSuffix|] == model;
    Request(
      url,
      map["Content-Type" := "application/json", "x-goog-api-key" := apiKey],
      RequestBody(prompt, width, height, quality))
  }

  // ---------------------------------------------------------------------
  // Reading the reply

  function Py<T>(r: Result<T, PyError>): Result<T, CallError> {
    match r
    case Ok(v) => Ok(v)
    case Err(e) => Err(Runtime(e))
  }

  /** `base64.b64decode(data)`: only a string (or bytes) is accepted. */
  function DecodeData(data: Json, decode: Base64Decoder): Result<Bytes, CallError> {
    match data
    case JString(s) =>
      (match decode(s)
       case Ok(b) => Ok(b)
       case Err(d) => Err(Base64Failed(d)))
    case _ => Err(Runtime(TypeError))
  }

  /** `base64.b64decode(part["inlineData"]["data"])`. */
  function DecodeInline(part: Json, decode: Base64Decoder): Result<Bytes, CallError> {
    var inline :- Py(GetItem(part, "inlineData"));
    var data :- Py(GetItem(inline, "data"));
    DecodeData(data, decode)
  }

  /** Python's `key in part` holds, without raising. */
  predicate HasInline(part: Json) {
    In("inlineData", part) == Ok(true)
  }

  /** Python's `key in part` is false, without raising. */
  predicate LacksInline(part: Json) {
    In("inlineData", part) == Ok(false)
  }

  /** The loop over the parts: the first part for which
      `"inlineData" in part` holds is decoded and returned; a part on which
      the test raises stops the loop with that error; running out of parts
      is the "no image data" error. */
  function ScanParts(parts: seq<Json>, decode: Base64Decoder): Result<Bytes, CallError>
    decreases |parts|
  {
    if parts == [] then Err(NoImageData)
    else
      match In("inlineData", parts[0])
      case Err(e) => Err(Runtime(e))
      case Ok(true) => DecodeInline(parts[0], decode)
      case Ok(false) => ScanParts(parts[1..], decode)
  }

  /** `for part in parts` on whatever `parts` turned out to be. A dict is
      iterated over its keys, which are strings: the first key containing
      "inlineData" makes `part["inlineData"]` raise TypeError, and with no
      such key the loop runs out; which key comes first does not change
      the outcome, so the keys' order is not needed. */
  function ScanIterable(parts: Json, decode: Base64Decoder): Result<Bytes, CallError> {
    match parts
    case JArray(xs) => ScanParts(xs, decode)
    case JString(s) => ScanParts(Chars(s), decode)
    case JObject(m) =>
      if exists k :: k in m && IsSubstring("inlineData", k) then Err(Runtime(TypeError)) else Err(NoImageData)
    case _ => Err(Runtime(TypeError))
  }

  /** The extraction step of `_call_api` on the parsed reply. */
  function Extract(result: Json, decode: Base64Decoder): Result<Bytes, CallError> {
    var hasCandidates :- Py(In("candidates", result));
    if !hasCandidates then Err(NoImageData)
    else
      var candidates :- Py(GetItem(result, "candidates"));
      var count :- Py(Len(candidates));
      if count == 0 then Err(NoImageData)
      else
        var candidate :- Py(First(candidates));
        var hasContent :- Py(In("content", candidate));
        if !hasContent then Err(NoImageData)
        else
          var content :- Py(GetItem(candidate, "content"));
          var hasParts :- Py(In("parts", content));
          if !hasParts then Err(NoImageData)
          else
            var parts :- Py(GetItem(content, "parts"));
            ScanIterable(parts, decode)
  }

  /** What `_call_api` does with the outcome of its POST: a transport
      exception passes through, a status other than 200 is an error
      carrying the status and the body text, and only then is the body
      parsed and searched. */
  function HandleResponse(outcome: HttpOutcome, decode: Base64Decoder): Result<Bytes, CallError> {
    match outcome
    case TransportFailure(d) => Err(Transport(d))
    case HttpResponse(status, text, json) =>
      if status != 200 then Err(ApiRequestFailed(status, text))
      else
        match json
        case Err(d) => Err(JsonDecodeFailed(d))
        case Ok(result) => Extract(result, decode)
  }

  /** `_call_api`: build the request, post it to `server`, read the reply. */
  function CallApi(
    prompt: string, width: int, height: int, model: string, apiKey: string, quality: string,
    server: Server, decode: Base64Decoder): Result<Bytes, CallError>
  {
    HandleResponse(server(BuildRequest(prompt, width, height, model, apiKey, quality)), decode)
  }

  // ---------------------------------------------------------------------
  // The invocation

  /** `_invoke`. `sent` lists the HTTP requests issued (at most one) and
      `msgs` the messages yielded (exactly one). */
  method Invoke(params: ToolParameters, credentials: map<string, string>, server: Server, decode: Base64Decoder)
    returns (sent: seq<Request>, msgs: seq<Message>)
    ensures |msgs| == 1 && |sent| <= 1
    ensures ApiKey(credentials) == "" <==> sent == []
    ensures ApiKey(credentials) == "" ==> msgs == [Text(MissingKeyText)]
    ensures ApiKey(credentials) != "" ==>
      var s := ReadSettings(params);
      var key := ApiKey(credentials);
      && sent == [BuildRequest(s.prompt, s.width, s.height, s.model, key, s.quality)]
      && match CallApi(s.prompt, s.width, s.height, s.model, key, s.quality, server, decode)
         case Ok(image) => msgs == [Blob(image, BlobMeta(PngMimeType, s.width, s.height))]
         case Err(e) => msgs == [Text(FailurePrefix + Describe(e))]
  {
    var s := ReadSettings(params);
    var apiKey := ApiKey(credentials);
    sent, msgs := [], [];
    if apiKey == "" {
      msgs := msgs + [Text(MissingKeyText)];
      return;
    }
    var request := BuildRequest(s.prompt, s.width, s.height, s.model, apiKey, s.quality);
    sent := sent + [request];
    var outcome := HandleResponse(server(request), decode);
    match outcome {
      case Ok(image) =>
        msgs := msgs + [Blob(image, BlobMeta(PngMimeType, s.width, s.height))];
      case Err(e) =>
        msgs := msgs + [Text(FailurePrefix + Describe(e))];
    }
  }
}
