/** The value types of the studio: generation modes, output formats, the
    parameters of one generation request, the UI status and a history entry. */
module Types {
  import opened Common

  datatype VideoMode = TextToVideo | FramesToVideo | ReferencesToVideo | Avatar

  /** '720p' | '1080p' */
  datatype Resolution = Res720p | Res1080p

  /** '16:9' | '9:16' */
  datatype AspectRatio = Landscape16x9 | Portrait9x16

  /** Every clip lasts seven seconds: the field's type admits one value. */
  type Duration = d: int | d == 7 witness 7

  /** GenerateVideoParams. Optional string fields are `Option`s; a base64
      image read from a file may itself be undefined (see PromptFormState),
      hence the optional elements of `referenceImages`. An absent `looping`
      is false. */
  datatype GenerateVideoParams = GenerateVideoParams(
    mode: VideoMode,
    prompt: string,
    script: Option<string>,
    aspectRatio: AspectRatio,
    resolution: Resolution,
    duration: Duration,
    startFrame: Option<string>,
    endFrame: Option<string>,
    referenceImages: Option<seq<Option<string>>>,
    looping: bool)

  datatype Step = Idle | KeyCheck | Initializing | Generating | Success | Error

  datatype GenerationStatus = GenerationStatus(step: Step, message: string)

  datatype VideoResult = VideoResult(url: string, params: GenerateVideoParams, timestamp: int)
}

/** Model identifiers and the fixed prompt suffixes. */
module Constants {
  const VEO_FAST_MODEL := "veo-3.1-fast-generate-preview"
  const VEO_PRO_MODEL := "veo-3.1-generate-preview"

  const AVATAR_PROMPT_ENHANCEMENT :=
    "\nHigh-quality digital human, professional news broadcast style, \n"
    + "flawless lip synchronization, studio lighting, 8k resolution, \n"
    + "photorealistic skin textures, cinematic depth of field. \n"
    + "The character should speak the script naturally with facial expressions.\n"

  const VISUAL_ENHANCEMENT := "8k resolution, photorealistic, cinematic lighting, masterpiece, hyper-detailed."
}
