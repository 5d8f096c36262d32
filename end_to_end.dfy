/** Properties that span the browser client and the proxy: what a request
    built by the client becomes once the proxy has shaped it for the
    provider, and whole runs against particular provider behaviours. */
module EndToEnd {
  import opened Common
  import opened Types
  import opened ProxyApi
  import opened GeminiService
  import opened WorkflowProperties
  import opened Server
  import opened PromptFormState
  import opened AppState

  /** The client always sends a `config`, so the proxy's re-tagging of
      reference images never writes into an absent config. */
  lemma ClientRequestsShapeCleanly(params: GenerateVideoParams)
    ensures !ShapingFails(RequestFor(params))
    ensures RequestFor(params).config.Some?
  {
  }

  /** The provider receives the client's model, prompt, frames and settings
      untouched, and the references the user chose, in order, as PNG
      images tagged ASSET; references reach it only in REFERENCES mode. */
  lemma ReferencesReachProviderAsAssets(params: GenerateVideoParams)
    ensures var request := ProviderRequestFor(RequestFor(params));
      && request.model == SelectModel(params.mode)
      && request.prompt == BuildPrompt(params)
      && request.image == RequestFor(params).image
      && request.config.value.lastFrame == RequestFor(params).config.value.lastFrame
      && request.config.Some?
      && request.config.value.numberOfVideos == 1
      && request.config.value.resolution == params.resolution
      && request.config.value.aspectRatio == params.aspectRatio
      && (request.config.value.referenceImages.Some? <==>
            params.mode == ReferencesToVideo && params.referenceImages.Some?)
      && (request.config.value.referenceImages.Some? ==>
            var sent := request.config.value.referenceImages.value;
            && |sent| == |params.referenceImages.value|
            && forall i :: 0 <= i < |sent| ==>
                 sent[i] == ProviderReference(Png(params.referenceImages.value[i]), Asset))
  {
    var body := RequestFor(params);
    var request := ProviderRequestFor(body);
    if body.referenceImages.Some? {
      var wrapped := WrapReferences(params.referenceImages.value);
      assert body.referenceImages.value == wrapped;
      var sent := request.config.value.referenceImages.value;
      assert sent == Retag(wrapped);
      forall i | 0 <= i < |sent|
        ensures sent[i] == ProviderReference(Png(params.referenceImages.value[i]), Asset)
      {
        assert sent[i].image == wrapped[i].image;
      }
    }
  }

  /** Parameters edited in the form never make the provider receive more
      than three reference images. */
  lemma FormCapsProviderReferences(params: GenerateVideoParams)
    requires WithinUploadLimit(params)
    ensures var request := ProviderRequestFor(RequestFor(params));
      request.config.value.referenceImages.Some? ==>
        |request.config.value.referenceImages.value| <= MAX_REFERENCE_IMAGES
  {
    ReferencesReachProviderAsAssets(params);
  }

  // ---------------------------------------------------------------------------
  // Runs against particular provider behaviours

  function Running(name: string): Operation {
    Operation(name, false, None, None)
  }

  function Finished(name: string, uri: Option<string>): Operation {
    Operation(name, true, None, Some(GenerationResponse(Some([GeneratedVideo(Some(VideoRef(uri)))]))))
  }

  /** An operation still running after the first two polls and done on the
      third is polled exactly three times, then its video is downloaded. */
  lemma ThirdPollDelivers(request: GenerateBody, name: string, uri: string, objectUrl: string)
    ensures var provider := Provider(Ok(Running(name)),
                                     [Ok(Running(name)), Ok(Running(name)), Ok(Finished(name, Some(uri)))],
                                     Ok(objectUrl));
      var run := Workflow(request, provider);
      && run.outcome == Done(objectUrl)
      && CountPolls(run.events) == 3
      && run.events[|run.events| - 1] == Post(DownloadCall(Some(uri)))
  {
    var provider := Provider(Ok(Running(name)),
                             [Ok(Running(name)), Ok(Running(name)), Ok(Finished(name, Some(uri)))],
                             Ok(objectUrl));
    assert FirstSettled(provider.polls, 2) == 2;
    assert FirstSettled(provider.polls, 0) == 2;
    PollingDecidesRun(request, provider);
  }

  /** An internal error reported on the first poll ends the run with the
      API error text, downloads nothing, and the page shows the Error-13 line. */
  lemma InternalErrorOnFirstPoll(request: GenerateBody, name: string, provider: Provider)
    requires provider.created == Ok(Running(name))
    requires |provider.polls| > 0 && provider.polls[0] == Ok(Operation(name, true, Some(OperationError(13, "internal")), None))
    ensures var run := Workflow(request, provider);
      && run.outcome == Failed(Thrown("API Error 13: internal"))
      && CountPolls(run.events) == 1
      && !HasDownload(run.events)
      && DisplayMessage(Some(FailureMessage(run.outcome.failure))) == ERROR_13_TEXT
  {
    assert FirstSettled(provider.polls, 0) == 0;
    PollingDecidesRun(request, provider);
    assert NatToString(13) == "13";
    assert ApiErrorText(OperationError(13, "internal")) == "API Error 13: internal";
    Code13IsInternalError("internal");
  }

  /** A created operation that is already done but whose video has no URI
      is not an error on the client: it posts a download body without `uri`,
      and the proxy, given a key, fetches "undefined&key=" followed by it. */
  lemma VideoWithoutUriIsFetchedAsUndefined(request: GenerateBody, name: string, provider: Provider, key: string)
    requires provider.created == Ok(Finished(name, None))
    ensures var run := Workflow(request, provider);
      && CountPolls(run.events) == 0
      && run.events[|run.events| - 1] == Post(DownloadCall(None))
      && run.outcome == DownloadOutcome(provider.download)
    ensures DownloadUrl(Interpolate(None), key) == "undefined&key=" + key
  {
    NoPollWhenCreatedDone(request, provider);
  }
}
