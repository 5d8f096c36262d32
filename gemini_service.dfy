/** The browser-side client of the proxy (VeoService): it picks a model,
    composes the prompt, assembles the generation request, then runs the
    create -> poll-until-done -> download workflow.

    The network is an abstract `Provider`: the reply to the creation call, a
    finite script of replies to successive poll calls, and the reply to the
    download call, which carries the local object URL the browser would mint
    for the downloaded blob when it succeeds. Any reply may instead be a
    rejected fetch. The poll loop has no iteration cap; a run that exhausts
    the scripted poll replies ends in `Polling` (the real loop would still be
    waiting). The ten-second pause between polls is the abstract `Wait` event. */
module GeminiService {
  import opened Common
  import opened Types
  import opened Constants
  import opened ProxyApi

  const PNG_MIME_TYPE := "image/png"
  const POLL_INTERVAL_SECONDS := 10

  const SUBMITTING_MESSAGE := "正在提交创作指令..."
  const SYNCING_MESSAGE := "正在同步视频流..."
  /** The error used when a failed creation reply is not JSON. */
  const CREATE_UNREADABLE_ERROR := "未知错误"
  /** The error used when a failed poll reply is not JSON. */
  const POLL_UNREADABLE_ERROR := "轮询失败"
  const POLL_FAILED_ERROR := "轮询操作失败"
  const DOWNLOAD_FAILED_ERROR := "视频数据同步失败"

  // ---------------------------------------------------------------------------
  // Request building

  /** The higher-fidelity model serves reference-image generation; every other
      mode uses the fast model. */
  function SelectModel(mode: VideoMode): (model: string)
    ensures model == VEO_PRO_MODEL <==> mode == ReferencesToVideo
    ensures model == VEO_FAST_MODEL <==> mode != ReferencesToVideo
  {
    if mode == ReferencesToVideo then VEO_PRO_MODEL else VEO_FAST_MODEL
  }

  /** The prompt sent to the provider: an avatar request wraps scene and
      script in markers before the avatar suffix; every other mode appends the
      visual-quality suffix to the user's text. */
  function BuildPrompt(params: GenerateVideoParams): string {
    if params.mode == Avatar then
      "[SCENE: " + params.prompt + "] [SCRIPT: " + Interpolate(params.script) + "] " + AVATAR_PROMPT_ENHANCEMENT
    else
      params.prompt + ", " + VISUAL_ENHANCEMENT
  }

  /** Where each part of an avatar prompt sits, for any scene, script and
      suffix; together the parts cover the whole prompt. */
  lemma AvatarLayout(scene: string, script: string, suffix: string)
    ensures var p := "[SCENE: " + scene + "] [SCRIPT: " + script + "] " + suffix;
      && |p| == 21 + |scene| + |script| + |suffix|
      && OccursAt(p, "[SCENE: ", 0)
      && OccursAt(p, scene, 8)
      && OccursAt(p, "] [SCRIPT: ", 8 + |scene|)
      && OccursAt(p, script, 19 + |scene|)
      && OccursAt(p, "] ", 19 + |scene| + |script|)
      && OccursAt(p, suffix, 21 + |scene| + |script|)
  {
    var p := "[SCENE: " + scene + "] [SCRIPT: " + script + "] " + suffix;
    var a, b, c := "[SCENE: " + scene, "] [SCRIPT: " + script, "] " + suffix;
    assert p == a + b + c;
    assert a[..8] == "[SCENE: " && a[8..] == scene;
    assert b[..11] == "] [SCRIPT: " && b[11..] == script;
    assert c[..2] == "] " && c[2..] == suffix;
    assert p[..|a|] == a;
    assert p[|a|..|a| + |b|] == b;
    assert p[|a| + |b|..] == c;
  }

  /** Where the user's text, the separator and the suffix sit in `text + sep + suffix`. */
  lemma AppendedLayout(text: string, sep: string, suffix: string)
    ensures var p := text + sep + suffix;
      && |p| == |text| + |sep| + |suffix|
      && OccursAt(p, text, 0)
      && OccursAt(p, sep, |text|)
      && OccursAt(p, suffix, |text| + |sep|)
  {
    var p := text + sep + suffix;
    assert p[..|text|] == text;
    assert p[|text|..|text| + |sep|] == sep;
    assert p[|text| + |sep|..] == suffix;
  }

  /** An avatar prompt, part by part: the scene marker, the scene text, the
      script marker, the script (or "undefined"), "] " and the avatar
      suffix, and nothing else. */
  lemma AvatarPromptLayout(params: GenerateVideoParams)
    requires params.mode == Avatar
    ensures var p := BuildPrompt(params);
      var scene, script := params.prompt, Interpolate(params.script);
      && |p| == 21 + |scene| + |script| + |AVATAR_PROMPT_ENHANCEMENT|
      && OccursAt(p, "[SCENE: ", 0)
      && OccursAt(p, scene, 8)
      && OccursAt(p, "] [SCRIPT: ", 8 + |scene|)
      && OccursAt(p, script, 19 + |scene|)
      && OccursAt(p, "] ", 19 + |scene| + |script|)
      && OccursAt(p, AVATAR_PROMPT_ENHANCEMENT, 21 + |scene| + |script|)
  {
    AvatarLayout(params.prompt, Interpolate(params.script), AVATAR_PROMPT_ENHANCEMENT);
  }

  /** Any other prompt is the user's text, ", " and the visual suffix, and
      nothing else. */
  lemma PlainPromptLayout(params: GenerateVideoParams)
    requires params.mode != Avatar
    ensures var p := BuildPrompt(params);
      && |p| == |params.prompt| + 2 + |VISUAL_ENHANCEMENT|
      && OccursAt(p, params.prompt, 0)
      && OccursAt(p, ", ", |params.prompt|)
      && OccursAt(p, VISUAL_ENHANCEMENT, |params.prompt| + 2)
  {
    AppendedLayout(params.prompt, ", ", VISUAL_ENHANCEMENT);
  }

  /** The prompt depends on the mode, the prompt text and the script alone. */
  lemma PromptIgnoresOtherSettings(a: GenerateVideoParams, b: GenerateVideoParams)
    requires a.mode == b.mode && a.prompt == b.prompt && a.script == b.script
    ensures BuildPrompt(a) == BuildPrompt(b)
  {
  }

  function Png(bytes: Option<string>): ImageData {
    ImageData(bytes, PNG_MIME_TYPE)
  }

  /** Each reference image, in order, wrapped as a PNG `{ image }` entry. */
  function WrapReferences(images: seq<Option<string>>): (refs: seq<ClientReference>)
    ensures |refs| == |images|
    ensures forall i :: 0 <= i < |refs| ==> refs[i] == ClientReference(Png(images[i]))
  {
    seq(|images|, i requires 0 <= i < |images| => ClientReference(Png(images[i])))
  }

  /** The generation request for `params`, as an expression. `BuildRequest`
      computes it step by step. */
  function RequestFor(params: GenerateVideoParams): GenerateBody {
    var config := VideoConfig(1, params.resolution, params.aspectRatio, None, None);
    var base := GenerateBody(SelectModel(params.mode), BuildPrompt(params), Some(config), None, None);
    if params.mode == FramesToVideo then
      var lastFrame :=
        if params.looping && Truthy(params.startFrame) then Some(Png(params.startFrame))
        else if Truthy(params.endFrame) then Some(Png(params.endFrame))
        else None;
      base.(image := if Truthy(params.startFrame) then Some(Png(params.startFrame)) else None,
            config := Some(config.(lastFrame := lastFrame)))
    else if params.mode == ReferencesToVideo && params.referenceImages.Some? then
      base.(referenceImages := Some(WrapReferences(params.referenceImages.value)))
    else
      base
  }

  /** Assembles the request object field by field, as the client does. */
  method BuildRequest(params: GenerateVideoParams) returns (body: GenerateBody)
    ensures body == RequestFor(params)
    ensures body.model == VEO_PRO_MODEL <==> params.mode == ReferencesToVideo
    ensures body.prompt == BuildPrompt(params)
    ensures body.config.Some?
    ensures body.config.value.numberOfVideos == 1
    ensures body.config.value.resolution == params.resolution
    ensures body.config.value.aspectRatio == params.aspectRatio
    ensures body.config.value.referenceImages == None
    // frames: only in FRAMES mode; a looping clip ends on its start frame
    ensures body.image ==
      if params.mode == FramesToVideo && Truthy(params.startFrame) then Some(Png(params.startFrame)) else None
    ensures params.mode != FramesToVideo ==> body.config.value.lastFrame == None
    ensures params.mode == FramesToVideo && params.looping && Truthy(params.startFrame) ==>
      body.config.value.lastFrame == Some(Png(params.startFrame))
    ensures params.mode == FramesToVideo && !(params.looping && Truthy(params.startFrame)) ==>
      body.config.value.lastFrame == if Truthy(params.endFrame) then Some(Png(params.endFrame)) else None
    // reference images: only in REFERENCES mode, same count and order
    ensures body.referenceImages.Some? <==> params.mode == ReferencesToVideo && params.referenceImages.Some?
    ensures body.referenceImages.Some? ==>
      && |body.referenceImages.value| == |params.referenceImages.value|
      && forall i :: 0 <= i < |body.referenceImages.value| ==>
           body.referenceImages.value[i] == ClientReference(ImageData(params.referenceImages.value[i], PNG_MIME_TYPE))
  {
    var selectedModel := SelectModel(params.mode);
    var config := VideoConfig(1, params.resolution, params.aspectRatio, None, None);
    body := GenerateBody(selectedModel, BuildPrompt(params), Some(config), None, None);
    if params.mode == FramesToVideo {
      if Truthy(params.startFrame) {
        body := body.(image := Some(Png(params.startFrame)));
      }
      if Truthy(params.endFrame) {
        config := config.(lastFrame := Some(Png(params.endFrame)));
      }
      if params.looping && Truthy(params.startFrame) {
        config := config.(lastFrame := Some(Png(params.startFrame)));
      }
      body := body.(config := Some(config));
    } else if params.mode == ReferencesToVideo && params.referenceImages.Some? {
      body := body.(referenceImages := Some(WrapReferences(params.referenceImages.value)));
    }
  }

  // ---------------------------------------------------------------------------
  // The abstract network and what the client does with it

  /** What a `fetch` to the proxy yields: a 2xx reply carrying JSON, a
      failed reply whose body may not be JSON (`None`), or a rejected
      promise (a network error) with the message it rejects with. */
  datatype Reply<T> = Ok(value: T) | NotOk(status: int, body: Option<ErrorJson>) | Rejected(message: string)

  /** The proxy's answers in one run: to the creation call, to each poll in
      turn, and to the download call, whose successful reply is given as the
      object URL created for the downloaded blob. */
  datatype Provider = Provider(
    created: Reply<Operation>,
    polls: seq<Reply<Operation>>,
    download: Reply<string>)

  /** The requests the client posts; a download body whose `uri` is
      undefined is serialised without it (`None`). */
  datatype Request = GenerateCall(body: GenerateBody) | PollCall(operation: Operation) | DownloadCall(uri: Option<string>)

  /** What the client does, in order: progress reports, pauses, and requests to the proxy. */
  datatype Event = Progress(message: string) | Wait | Post(request: Request)

  /** An `Error` thrown with a message, or the TypeError raised when the
      settled operation lacks a video URI. */
  datatype Failure = Thrown(message: string) | MissingProperty(property: string)

  datatype Outcome = Done(url: string) | Failed(failure: Failure) | Polling

  datatype Run = Run(outcome: Outcome, events: seq<Event>)

  /** `error.message` of the exception the client throws. */
  function FailureMessage(f: Failure): string {
    match f
    case Thrown(m) => m
    case MissingProperty(p) => ReadUndefinedMessage(p)
  }

  /** The message thrown for a failed creation reply: the body's `error`,
      else its `message`, else "HTTP <status>"; never empty. */
  function CreationFailureText(status: int, body: Option<ErrorJson>): (text: string)
    ensures text != ""
  {
    match body
    case None => CREATE_UNREADABLE_ERROR
    case Some(e) => Or(e.error, Or(e.message, "HTTP " + IntToString(status)))
  }

  /** The message thrown for a failed poll reply; never empty. */
  function PollFailureText(body: Option<ErrorJson>): (text: string)
    ensures text != ""
  {
    match body
    case None => POLL_UNREADABLE_ERROR
    case Some(e) => Or(e.error, Or(e.message, POLL_FAILED_ERROR))
  }

  /** The message thrown for an operation error; never empty. */
  function ApiErrorText(e: OperationError): (text: string)
    ensures text != ""
  {
    "API Error " + IntToString(e.code) + ": " + e.message
  }

  function RenderingMessage(pollCount: nat): string {
    "渲染中 (" + NatToString(pollCount * POLL_INTERVAL_SECONDS) + "s)..."
  }

  datatype UriLookup = Found(uri: Option<string>) | Missing(property: string)

  /** `operation.response.generatedVideos[0].video.uri` (itself possibly
      undefined), or the property whose read fails because its holder is
      undefined. */
  function VideoUri(op: Operation): (r: UriLookup)
    ensures r.Found? <==>
      && op.response.Some? && op.response.value.generatedVideos.Some?
      && |op.response.value.generatedVideos.value| > 0
      && op.response.value.generatedVideos.value[0].video.Some?
    ensures r.Found? ==> r.uri == op.response.value.generatedVideos.value[0].video.value.uri
  {
    match op.response
    case None => Missing("generatedVideos")
    case Some(response) =>
      match response.generatedVideos
      case None => Missing("0")
      case Some(videos) =>
        if |videos| == 0 then Missing("video")
        else match videos[0].video
          case None => Missing("uri")
          case Some(v) => Found(v.uri)
  }

  // ---------------------------------------------------------------------------
  // Specification of the workflow

  /** One trip round the loop: report elapsed time, pause, poll. */
  function PollRound(pollCount: nat, op: Operation): seq<Event> {
    [Progress(RenderingMessage(pollCount)), Wait, Post(PollCall(op))]
  }

  datatype LoopEnd = Settled(operation: Operation) | Aborted(failure: Failure) | OutOfReplies

  datatype LoopRun = LoopRun(end: LoopEnd, events: seq<Event>, pollCount: nat)

  /** A poll reply after which the loop goes round again: received, no
      error, not done. */
  predicate Pending(r: Reply<Operation>) {
    r.Ok? && r.value.error.None? && !r.value.done
  }

  /** How the loop ends on a reply that is not pending: a failed reply and an
      operation carrying an error both abort (the latter even when done); any
      other reply is a done operation. */
  function EndOn(r: Reply<Operation>): (end: LoopEnd)
    requires !Pending(r)
    ensures !end.OutOfReplies?
    ensures end.Settled? <==> r.Ok? && r.value.error.None?
    ensures end.Settled? ==> end.operation == r.value && r.value.done
    ensures r.NotOk? ==> end == Aborted(Thrown(PollFailureText(r.body)))
    ensures r.Rejected? ==> end == Aborted(Thrown(r.message))
    ensures r.Ok? && r.value.error.Some? ==> end == Aborted(Thrown(ApiErrorText(r.value.error.value)))
  {
    match r
    case NotOk(_, body) => Aborted(Thrown(PollFailureText(body)))
    case Rejected(m) => Aborted(Thrown(m))
    case Ok(o) => if o.error.Some? then Aborted(Thrown(ApiErrorText(o.error.value))) else Settled(o)
  }

  /** The poll loop entered with operation `op` after `count` polls, answered
      by `replies[count..]`. */
  function PollLoop(op: Operation, replies: seq<Reply<Operation>>, count: nat): (r: LoopRun)
    requires count <= |replies|
    ensures op.done <==> r.pollCount == count
    ensures count <= r.pollCount <= |replies| + 1
    ensures |r.events| == 3 * (r.pollCount - count)
    ensures r.end.OutOfReplies? <==> r.pollCount == |replies| + 1
    decreases |replies| - count
  {
    if op.done then LoopRun(Settled(op), [], count)
    else if count < |replies| && Pending(replies[count]) then
      var rest := PollLoop(replies[count].value, replies, count + 1);
      LoopRun(rest.end, PollRound(count + 1, op) + rest.events, rest.pollCount)
    else
      var end := if count == |replies| then OutOfReplies else EndOn(replies[count]);
      LoopRun(end, PollRound(count + 1, op), count + 1)
  }

  /** The events that open every run: the submission report and the creation call. */
  function Submission(request: GenerateBody): seq<Event> {
    [Progress(SUBMITTING_MESSAGE), Post(GenerateCall(request))]
  }

  /** The whole create -> poll -> download run of `request` against `provider`. */
  function Workflow(request: GenerateBody, provider: Provider): (r: Run)
    ensures |r.events| >= 2 && r.events[..2] == Submission(request)
    ensures r.outcome.Done? ==> provider.download == Ok(r.outcome.url)
  {
    match provider.created
    case NotOk(status, body) => Run(Failed(Thrown(CreationFailureText(status, body))), Submission(request))
    case Rejected(m) => Run(Failed(Thrown(m)), Submission(request))
    case Ok(op) => AfterPolling(Submission(request), PollLoop(op, provider.polls, 0), provider)
  }

  /** How a run continues once the poll loop has ended as `loop`. */
  function AfterPolling(submit: seq<Event>, loop: LoopRun, provider: Provider): (r: Run)
    ensures |r.events| >= |submit| + |loop.events|
    ensures r.events[..|submit| + |loop.events|] == submit + loop.events
    ensures r.outcome.Polling? <==> loop.end.OutOfReplies?
    ensures r.outcome.Done? ==> provider.download == Ok(r.outcome.url)
  {
    var polled := submit + loop.events;
    match loop.end
    case Aborted(f) => Run(Failed(f), polled)
    case OutOfReplies => Run(Polling, polled)
    case Settled(final) =>
      match VideoUri(final)
      case Missing(p) => Run(Failed(MissingProperty(p)), polled)
      case Found(uri) =>
        Run(DownloadOutcome(provider.download), polled + [Progress(SYNCING_MESSAGE), Post(DownloadCall(uri))])
  }

  /** How the download call ends the run: the object URL of the blob, the
      client's own error for a failed reply, or the rejection's message. */
  function DownloadOutcome(download: Reply<string>): Outcome {
    match download
    case Ok(url) => Done(url)
    case NotOk(_, _) => Failed(Thrown(DOWNLOAD_FAILED_ERROR))
    case Rejected(m) => Failed(Thrown(m))
  }

  // ---------------------------------------------------------------------------
  // The client's generateVideo

  /** The poll loop of generateVideo: poll until the operation is done, an
      HTTP failure or an API error occurs, or the scripted replies run out. */
  method PollUntilDone(created: Operation, replies: seq<Reply<Operation>>)
    returns (end: LoopEnd, events: seq<Event>, pollCount: nat)
    ensures LoopRun(end, events, pollCount) == PollLoop(created, replies, 0)
  {
    ghost var whole := PollLoop(created, replies, 0);
    var operation := created;
    pollCount := 0;
    events := [];
    while !operation.done
      invariant pollCount <= |replies|
      invariant var loop := PollLoop(operation, replies, pollCount);
        whole == LoopRun(loop.end, events + loop.events, loop.pollCount)
      decreases |replies| - pollCount
    {
      ghost var here := PollLoop(operation, replies, pollCount);
      pollCount := pollCount + 1;
      var round := [Progress(RenderingMessage(pollCount)), Wait, Post(PollCall(operation))];
      events := events + round;
      if pollCount > |replies| {
        assert here == LoopRun(OutOfReplies, round, pollCount);
        end := OutOfReplies;
        return;
      }
      var reply := replies[pollCount - 1];
      if reply.Rejected? {
        assert here == LoopRun(Aborted(Thrown(reply.message)), round, pollCount);
        end := Aborted(Thrown(reply.message));
        return;
      }
      if reply.NotOk? {
        assert here == LoopRun(Aborted(Thrown(PollFailureText(reply.body))), round, pollCount);
        end := Aborted(Thrown(PollFailureText(reply.body)));
        return;
      }
      operation := reply.value;
      if operation.error.Some? {
        assert here == LoopRun(Aborted(Thrown(ApiErrorText(operation.error.value))), round, pollCount);
        end := Aborted(Thrown(ApiErrorText(operation.error.value)));
        return;
      }
      assert here.events == round + PollLoop(operation, replies, pollCount).events;
    }
    end := Settled(operation);
  }

  /** generateVideo: build the request for `params`, then submit it and
      follow the operation to its video. */
  method GenerateVideo(params: GenerateVideoParams, provider: Provider) returns (outcome: Outcome, events: seq<Event>)
    ensures Run(outcome, events) == Workflow(RequestFor(params), provider)
  {
    var request := BuildRequest(params);
    outcome, events := SubmitAndFollow(request, provider);
  }

  /** The part of generateVideo after the request is built: the creation
      call, the poll loop, the URI lookup and the download. */
  method SubmitAndFollow(request: GenerateBody, provider: Provider) returns (outcome: Outcome, events: seq<Event>)
    ensures Run(outcome, events) == Workflow(request, provider)
  {
    events := [Progress(SUBMITTING_MESSAGE), Post(GenerateCall(request))];
    if provider.created.Rejected? {
      outcome := Failed(Thrown(provider.created.message));
      return;
    }
    if provider.created.NotOk? {
      outcome := Failed(Thrown(CreationFailureText(provider.created.status, provider.created.body)));
      return;
    }
    var end, loopEvents, pollCount := PollUntilDone(provider.created.value, provider.polls);
    events := events + loopEvents;
    match end {
      case Aborted(f) =>
        outcome := Failed(f);
      case OutOfReplies =>
        outcome := Polling;
      case Settled(operation) =>
        var lookup := VideoUri(operation);
        if lookup.Missing? {
          outcome := Failed(MissingProperty(lookup.property));
          return;
        }
        events := events + [Progress(SYNCING_MESSAGE), Post(DownloadCall(lookup.uri))];
        match provider.download {
          case Ok(url) =>
            outcome := Done(url);
          case NotOk(_, _) =>
            outcome := Failed(Thrown(DOWNLOAD_FAILED_ERROR));
          case Rejected(m) =>
            outcome := Failed(Thrown(m));
        }
    }
  }
}
