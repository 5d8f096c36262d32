/** The PromptForm component: the generation parameters the user edits one
    field at a time, the file uploads that fill the image fields, and the
    condition under which the form may be submitted. */
module PromptFormState {
  import opened Common
  import opened Types

  datatype FileField = StartFrame | EndFrame | ReferenceImages

  const MAX_REFERENCE_IMAGES := 3

  /** What the form shows before any edit. */
  function InitialParams(): (p: GenerateVideoParams)
    ensures p.mode == TextToVideo && p.prompt == "" && p.script == Some("")
    ensures p.aspectRatio == Portrait9x16 && p.resolution == Res720p && p.duration == 7
    ensures p.startFrame == None && p.endFrame == None && p.referenceImages == None && !p.looping
  {
    GenerateVideoParams(TextToVideo, "", Some(""), Portrait9x16, Res720p, 7, None, None, None, false)
  }

  /** The index of the first comma in `s`, or `|s|` when there is none. */
  function FirstComma(s: string): (i: nat)
    ensures i <= |s|
    ensures ',' !in s[..i]
    ensures i < |s| ==> s[i] == ','
  {
    if s == [] then 0
    else if s[0] == ',' then 0
    else
      var i := 1 + FirstComma(s[1..]);
      assert s[..i] == [s[0]] + s[1..][..i - 1];
      i
  }

  /** `dataUrl.split(',')[1]`: the text between the first comma and the next
      one (or the end), undefined when there is no comma at all. */
  function Base64Part(dataUrl: string): (r: Option<string>)
    ensures r.None? <==> ',' !in dataUrl
    ensures r.Some? ==> ',' !in r.value
  {
    var first := FirstComma(dataUrl);
    if first == |dataUrl| then
      assert dataUrl[..first] == dataUrl;
      None
    else
      var rest := dataUrl[first + 1..];
      Some(rest[..FirstComma(rest)])
  }

  /** FirstComma stops at the comma that follows a comma-free prefix. */
  lemma {:induction false} FirstCommaAfter(header: string, tail: string)
    requires ',' !in header
    requires tail == [] || tail[0] == ','
    ensures FirstComma(header + tail) == |header|
    decreases |header|
  {
    if header != [] {
      assert (header + tail)[1..] == header[1..] + tail;
      FirstCommaAfter(header[1..], tail);
    } else {
      assert header + tail == tail;
    }
  }

  /** A data URL `header,payload` (possibly followed by further
      comma-separated text) yields exactly its payload. */
  lemma DataUrlPayload(header: string, payload: string, tail: string)
    requires ',' !in header && ',' !in payload
    requires tail == [] || tail[0] == ','
    ensures Base64Part(header + "," + payload + tail) == Some(payload)
  {
    var url := header + "," + payload + tail;
    assert url == header + ("," + payload + tail);
    FirstCommaAfter(header, "," + payload + tail);
    assert url[|header| + 1..] == payload + tail;
    FirstCommaAfter(payload, tail);
    assert (payload + tail)[..|payload|] == payload;
  }

  /** The base64 payloads of the files read, in order. */
  function EncodeAll(dataUrls: seq<string>): (images: seq<Option<string>>)
    ensures |images| == |dataUrls|
    ensures forall i :: 0 <= i < |images| ==> images[i] == Base64Part(dataUrls[i])
  {
    seq(|dataUrls|, i requires 0 <= i < |dataUrls| => Base64Part(dataUrls[i]))
  }

  /** What the form maintains about its parameters: never more reference
      images than the upload keeps. */
  predicate WithinUploadLimit(p: GenerateVideoParams) {
    p.referenceImages.Some? ==> |p.referenceImages.value| <= MAX_REFERENCE_IMAGES
  }

  /** Whether the submit button is enabled. */
  function CanGenerate(p: GenerateVideoParams, isLoading: bool): (enabled: bool)
    ensures enabled <==> !isLoading && p.prompt != ""
  {
    !(isLoading || !Truthy(Some(p.prompt)))
  }

  class PromptForm {
    var params: GenerateVideoParams

    constructor ()
      ensures params == InitialParams()
      ensures WithinUploadLimit(params)
    {
      params := InitialParams();
    }

    method SelectMode(mode: VideoMode)
      modifies this
      requires WithinUploadLimit(params)
      ensures params == old(params).(mode := mode)
      ensures WithinUploadLimit(params)
    {
      params := params.(mode := mode);
    }

    method SetPrompt(text: string)
      modifies this
      requires WithinUploadLimit(params)
      ensures params == old(params).(prompt := text)
      ensures WithinUploadLimit(params)
    {
      params := params.(prompt := text);
    }

    method SetScript(text: string)
      modifies this
      requires WithinUploadLimit(params)
      ensures params == old(params).(script := Some(text))
      ensures WithinUploadLimit(params)
    {
      params := params.(script := Some(text));
    }

    method SetAspectRatio(ratio: AspectRatio)
      modifies this
      requires WithinUploadLimit(params)
      ensures params == old(params).(aspectRatio := ratio)
      ensures WithinUploadLimit(params)
    {
      params := params.(aspectRatio := ratio);
    }

    method SetResolution(resolution: Resolution)
      modifies this
      requires WithinUploadLimit(params)
      ensures params == old(params).(resolution := resolution)
      ensures WithinUploadLimit(params)
    {
      params := params.(resolution := resolution);
    }

    /** A file input changed; `files` holds the data URLs of the chosen
        files in selection order, or is absent when the input has no file
        list. A single-frame input with an empty list fails on reading the
        missing first file and leaves the parameters alone. */
    method HandleFileChange(field: FileField, files: Option<seq<string>>)
      modifies this
      requires WithinUploadLimit(params)
      ensures files.None? ==> params == old(params)
      ensures files.Some? && field == ReferenceImages ==>
        var kept := if |files.value| < MAX_REFERENCE_IMAGES then files.value else files.value[..MAX_REFERENCE_IMAGES];
        params == old(params).(referenceImages := Some(EncodeAll(kept)))
      ensures files.Some? && field != ReferenceImages && files.value == [] ==> params == old(params)
      ensures files.Some? && field == StartFrame && files.value != [] ==>
        params == old(params).(startFrame := Base64Part(files.value[0]))
      ensures files.Some? && field == EndFrame && files.value != [] ==>
        params == old(params).(endFrame := Base64Part(files.value[0]))
      ensures WithinUploadLimit(params)
    {
      if files.None? {
        return;
      }
      var list := files.value;
      if field == ReferenceImages {
        var kept := if |list| < MAX_REFERENCE_IMAGES then list else list[..MAX_REFERENCE_IMAGES];
        var bases := EncodeAll(kept);
        params := params.(referenceImages := Some(bases));
      } else {
        if list == [] {
          return;
        }
        var base := Base64Part(list[0]);
        if field == StartFrame {
          params := params.(startFrame := base);
        } else {
          params := params.(endFrame := base);
        }
      }
    }

    /** The generate button: hands the current parameters over when enabled. */
    method Submit(isLoading: bool) returns (submitted: Option<GenerateVideoParams>)
      ensures submitted.Some? <==> !isLoading && params.prompt != ""
      ensures submitted.Some? ==> submitted.value == params
    {
      if CanGenerate(params, isLoading) {
        submitted := Some(params);
      } else {
        submitted := None;
      }
    }
  }

  /** An upload keeps the first files in selection order: the stored list
      is a prefix of the encoded selection, of length min(3, |files|). */
  lemma UploadKeepsLeadingFiles(files: seq<string>)
    ensures var kept := if |files| < MAX_REFERENCE_IMAGES then files else files[..MAX_REFERENCE_IMAGES];
      var images := EncodeAll(kept);
      && |images| == (if |files| < MAX_REFERENCE_IMAGES then |files| else MAX_REFERENCE_IMAGES)
      && images <= EncodeAll(files)
  {
  }
}
