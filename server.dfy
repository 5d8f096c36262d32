/** The Express proxy's three POST handlers. The provider SDK calls
    (`generateVideos`, `getVideosOperation`) and `fetch` are passed in as
    uninterpreted functions; each handler reports the single outbound call it
    made, if any, and the reply it writes. */
module Server {
  import opened Common
  import opened ProxyApi

  const MISSING_KEY_ERROR := "GEMINI_API_KEY 环境变量未设置"
  const MISSING_KEY_MESSAGE := "服务器配置错误，请联系管理员"
  const GENERATE_FAILED_ERROR := "视频生成失败"
  const RETRY_LATER_MESSAGE := "请求处理失败，请稍后重试"
  const POLL_FAILED_ERROR := "轮询操作失败"
  const DOWNLOAD_FAILED_ERROR := "视频下载失败"
  const VIDEO_CONTENT_TYPE := "video/mp4"

  /** A provider operation as the SDK returns it; `metadata` stands for the
      fields the proxy does not forward. */
  datatype ProviderOperation = ProviderOperation(
    name: string,
    done: bool,
    error: Option<OperationError>,
    response: Option<GenerationResponse>,
    metadata: Option<string>)

  /** The argument of `generateVideos`. */
  datatype ProviderRequest = ProviderRequest(
    model: string,
    prompt: string,
    config: Option<VideoConfig>,
    image: Option<ImageData>)

  /** An SDK call either returns or throws an error with a message. */
  datatype SdkResult<T> = Returned(value: T) | Threw(message: string)

  /** A `fetch` resolves with an ok flag and a body stream, or rejects. */
  datatype FetchResult = Fetched(ok: bool, stream: nat) | FetchThrew(message: string)

  datatype ReplyBody = OperationBody(operation: Operation) | ErrorBody(error: ErrorJson)

  /** What a handler writes: a JSON reply (status 200 unless set), or the
      upstream video stream piped through. */
  datatype Reply = JsonReply(status: int, body: ReplyBody) | VideoStream(contentType: string, stream: nat)

  function ServerError(error: string, message: Option<string>): Reply {
    JsonReply(500, ErrorBody(ErrorJson(Some(error), message)))
  }

  /** The operation fields forwarded to the client: exactly name, done, error
      and response. */
  function Project(op: ProviderOperation): (r: Operation)
    ensures r.name == op.name && r.done == op.done && r.error == op.error && r.response == op.response
  {
    Operation(op.name, op.done, op.error, op.response)
  }

  /** Each client reference image re-tagged as an ASSET reference. */
  function Retag(refs: seq<ClientReference>): (r: seq<ProviderReference>)
    ensures |r| == |refs|
    ensures forall i :: 0 <= i < |r| ==> r[i].image == refs[i].image && r[i].referenceType == Asset
  {
    seq(|refs|, i requires 0 <= i < |refs| => ProviderReference(refs[i].image, Asset))
  }

  /** Whether shaping the request throws: reference images cannot be stored
      under an absent `config`. */
  predicate ShapingFails(body: GenerateBody) {
    body.referenceImages.Some? && body.config.None?
  }

  /** The provider request built from a client body, as an expression. */
  function ProviderRequestFor(body: GenerateBody): (r: ProviderRequest)
    requires !ShapingFails(body)
    ensures r.model == body.model && r.prompt == body.prompt && r.image == body.image
    ensures body.referenceImages.None? ==> r.config == body.config
    ensures body.referenceImages.Some? ==>
      && r.config.Some?
      && r.config.value == body.config.value.(referenceImages := r.config.value.referenceImages)
      && r.config.value.referenceImages == Some(Retag(body.referenceImages.value))
  {
    var request := ProviderRequest(body.model, body.prompt, body.config, body.image);
    if body.referenceImages.Some? then
      request.(config := Some(body.config.value.(referenceImages := Some(Retag(body.referenceImages.value)))))
    else request
  }

  /** POST /api/generate-video. */
  method HandleGenerate(apiKey: Option<string>, body: GenerateBody, generateVideos: ProviderRequest -> SdkResult<ProviderOperation>)
    returns (call: Option<ProviderRequest>, reply: Reply)
    ensures !Truthy(apiKey) ==> call == None && reply == ServerError(MISSING_KEY_ERROR, Some(MISSING_KEY_MESSAGE))
    ensures Truthy(apiKey) && ShapingFails(body) ==>
      call == None && reply == ServerError(SetUndefinedMessage("referenceImages"), Some(RETRY_LATER_MESSAGE))
    ensures Truthy(apiKey) && !ShapingFails(body) ==>
      && call == Some(ProviderRequestFor(body))
      && reply == match generateVideos(call.value)
                  case Returned(op) => JsonReply(200, OperationBody(Project(op)))
                  case Threw(m) => ServerError(Or(Some(m), GENERATE_FAILED_ERROR), Some(RETRY_LATER_MESSAGE))
  {
    if !Truthy(apiKey) {
      return None, ServerError(MISSING_KEY_ERROR, Some(MISSING_KEY_MESSAGE));
    }
    var request := ProviderRequest(body.model, body.prompt, body.config, None);
    if body.image.Some? {
      request := request.(image := body.image);
    }
    if body.referenceImages.Some? {
      if request.config.None? {
        return None, ServerError(SetUndefinedMessage("referenceImages"), Some(RETRY_LATER_MESSAGE));
      }
      var config := request.config.value.(referenceImages := Some(Retag(body.referenceImages.value)));
      request := request.(config := Some(config));
    }
    call := Some(request);
    match generateVideos(request)
    case Returned(op) =>
      reply := JsonReply(200, OperationBody(Project(op)));
    case Threw(m) =>
      reply := ServerError(Or(Some(m), GENERATE_FAILED_ERROR), Some(RETRY_LATER_MESSAGE));
  }

  /** POST /api/poll-operation. */
  method HandlePoll(apiKey: Option<string>, operation: Operation, getVideosOperation: Operation -> SdkResult<ProviderOperation>)
    returns (call: Option<Operation>, reply: Reply)
    ensures !Truthy(apiKey) ==> call == None && reply == ServerError(MISSING_KEY_ERROR, None)
    ensures Truthy(apiKey) ==>
      && call == Some(operation)
      && reply == match getVideosOperation(operation)
                  case Returned(op) => JsonReply(200, OperationBody(Project(op)))
                  case Threw(m) => ServerError(Or(Some(m), POLL_FAILED_ERROR), None)
  {
    if !Truthy(apiKey) {
      return None, ServerError(MISSING_KEY_ERROR, None);
    }
    call := Some(operation);
    var current := getVideosOperation(operation);
    if current.Threw? {
      return call, ServerError(Or(Some(current.message), POLL_FAILED_ERROR), None);
    }
    reply := JsonReply(200, OperationBody(Project(current.value)));
  }

  /** The provider URL the video is fetched from: the client's URI with the
      key appended as a `key` query parameter. */
  function DownloadUrl(uri: string, key: string): (url: string)
    ensures |url| == |uri| + 5 + |key|
    ensures url[..|uri|] == uri
    ensures url[|uri|..] == "&key=" + key
  {
    uri + "&key=" + key
  }

  /** POST /api/download-video. The URI is interpolated into the URL as
      a template literal does, so an absent one reads "undefined". */
  method HandleDownload(apiKey: Option<string>, uri: Option<string>, fetch: string -> FetchResult)
    returns (fetched: Option<string>, reply: Reply)
    ensures !Truthy(apiKey) ==> fetched == None && reply == ServerError(MISSING_KEY_ERROR, None)
    ensures Truthy(apiKey) ==>
      && fetched == Some(DownloadUrl(Interpolate(uri), apiKey.value))
      && reply == match fetch(fetched.value)
                  case Fetched(ok, stream) =>
                    if ok then VideoStream(VIDEO_CONTENT_TYPE, stream) else ServerError(DOWNLOAD_FAILED_ERROR, None)
                  case FetchThrew(m) => ServerError(Or(Some(m), DOWNLOAD_FAILED_ERROR), None)
  {
    if !Truthy(apiKey) {
      return None, ServerError(MISSING_KEY_ERROR, None);
    }
    var url := DownloadUrl(Interpolate(uri), apiKey.value);
    fetched := Some(url);
    var response := fetch(url);
    if response.FetchThrew? {
      return fetched, ServerError(Or(Some(response.message), DOWNLOAD_FAILED_ERROR), None);
    }
    if !response.ok {
      // the handler throws its own error, whose message the catch block reports
      var thrown := DOWNLOAD_FAILED_ERROR;
      return fetched, ServerError(Or(Some(thrown), DOWNLOAD_FAILED_ERROR), None);
    }
    reply := VideoStream(VIDEO_CONTENT_TYPE, response.stream);
  }

  /** The projection forwards nothing but name, done, error and response:
      operations that differ only in other fields are reported identically. */
  lemma ProjectionForgetsExtraFields(op: ProviderOperation, metadata: Option<string>)
    ensures Project(op.(metadata := metadata)) == Project(op)
  {
  }

  /** The key can be read back from the download URL: it is the text after
      the URI and the "&key=" that follows it. */
  lemma DownloadUrlEndsWithKey(uri: string, key: string)
    ensures DownloadUrl(uri, key)[|uri| + 5..] == key
  {
    var url := DownloadUrl(uri, key);
    assert url[|uri|..] == "&key=" + key;
    assert url[|uri| + 5..] == url[|uri|..][5..];
  }
}
