/** The JSON bodies exchanged between the browser client and the proxy on
    /api/generate-video, /api/poll-operation and /api/download-video. A
    JSON round trip is taken to preserve these values. */
module ProxyApi {
  import opened Common
  import opened Types

  /** `{ imageBytes, mimeType }`; the bytes may be undefined. */
  datatype ImageData = ImageData(imageBytes: Option<string>, mimeType: string)

  datatype ReferenceType = Asset | Style

  /** A reference image as the client sends it: `{ image }`. */
  datatype ClientReference = ClientReference(image: ImageData)

  /** A reference image as the provider receives it: `{ image, referenceType }`. */
  datatype ProviderReference = ProviderReference(image: ImageData, referenceType: ReferenceType)

  /** The `config` block of a generation request. */
  datatype VideoConfig = VideoConfig(
    numberOfVideos: int,
    resolution: Resolution,
    aspectRatio: AspectRatio,
    lastFrame: Option<ImageData>,
    referenceImages: Option<seq<ProviderReference>>)

  /** Body of POST /api/generate-video. */
  datatype GenerateBody = GenerateBody(
    model: string,
    prompt: string,
    config: Option<VideoConfig>,
    image: Option<ImageData>,
    referenceImages: Option<seq<ClientReference>>)

  datatype OperationError = OperationError(code: int, message: string)

  /** A `video` entry; its `uri` may be missing. */
  datatype VideoRef = VideoRef(uri: Option<string>)

  datatype GeneratedVideo = GeneratedVideo(video: Option<VideoRef>)

  datatype GenerationResponse = GenerationResponse(generatedVideos: Option<seq<GeneratedVideo>>)

  /** `{ name, done, error, response }`: a long-running operation as the
      proxy reports it. An absent `done` is false. */
  datatype Operation = Operation(
    name: string,
    done: bool,
    error: Option<OperationError>,
    response: Option<GenerationResponse>)

  /** The body of an error reply: `{ error, message }`, either field may be absent. */
  datatype ErrorJson = ErrorJson(error: Option<string>, message: Option<string>)
}
