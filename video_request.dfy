/** The request `generateVideo` (services/geminiService.ts) submits to the
    video model: a configuration (one video, the resolution, the aspect
    ratio outside extension), the prompt when there is one, and the inputs
    each generation mode takes. The submission, the polling and the
    download of the result are not part of this model. */
module VideoRequest {
  import opened Wrappers

  datatype VeoModel = VeoFast | Veo
  datatype AspectRatio = Landscape | Portrait
  datatype Resolution = P720 | P1080

  /** The closed choice of generation modes. */
  datatype GenerationMode = TextToVideo | FramesToVideo | ReferencesToVideo | ExtendVideo

  /** An uploaded image: the file's MIME type and its base64 content. */
  datatype ImageFile = ImageFile(fileType: string, base64: string)

  /** A video object the API returned earlier; only its identity matters. */
  datatype VideoObject = VideoObject(id: nat)

  /** `GenerateVideoParams`; an absent `isLooping` is `false`. */
  datatype Params = Params(
    prompt: string,
    model: VeoModel,
    aspectRatio: AspectRatio,
    resolution: Resolution,
    mode: GenerationMode,
    startFrame: Option<ImageFile>,
    endFrame: Option<ImageFile>,
    referenceImages: Option<seq<ImageFile>>,
    styleImage: Option<ImageFile>,
    inputVideoObject: Option<VideoObject>,
    isLooping: bool)

  /** An image as the API takes it. */
  datatype Image = Image(imageBytes: string, mimeType: string)

  datatype ReferenceType = AssetReference | StyleReference
  datatype ReferenceImage = ReferenceImage(image: Image, referenceType: ReferenceType)

  /** The `config` object; an absent optional field is `None`. */
  datatype Config = Config(
    numberOfVideos: nat,
    resolution: Resolution,
    aspectRatio: Option<AspectRatio>,
    lastFrame: Option<Image>,
    referenceImages: Option<seq<ReferenceImage>>)

  /** The payload passed to `generateVideos`. */
  datatype Payload = Payload(
    model: VeoModel,
    config: Config,
    prompt: Option<string>,
    image: Option<Image>,
    video: Option<VideoObject>)

  const MissingVideoError: string := "An input video object is required to extend a video."

  function ToImage(f: ImageFile): Image {
    Image(f.base64, f.fileType)
  }

  /** The asset references, in the order of the images, then the style
      reference when there is a style image. */
  function References(p: Params): seq<ReferenceImage> {
    var assets := if p.referenceImages.Some? then p.referenceImages.value else [];
    seq(|assets|, i requires 0 <= i < |assets| => ReferenceImage(ToImage(assets[i]), AssetReference))
    + (if p.styleImage.Some? then [ReferenceImage(ToImage(p.styleImage.value), StyleReference)] else [])
  }

  /** The frame that closes the video: the start frame when looping, the end
      frame otherwise. */
  function FinalEndFrame(p: Params): Option<ImageFile> {
    if p.isLooping then p.startFrame else p.endFrame
  }

  function ImageOf(f: Option<ImageFile>): Option<Image> {
    if f.Some? then Some(ToImage(f.value)) else None
  }

  /** The request for `p`, or the error an extension without an input video
      raises: only that case fails, and every request asks for one video at
      the requested resolution with the requested model. */
  function RequestPayload(p: Params): (r: Result<Payload, string>)
    ensures r.Failure? <==> p.mode == ExtendVideo && p.inputVideoObject.None?
    ensures r.Failure? ==> r.error == MissingVideoError
    ensures r.Success? ==>
              r.value.model == p.model && r.value.config.numberOfVideos == 1 && r.value.config.resolution == p.resolution
  {
    if p.mode == ExtendVideo && p.inputVideoObject.None? then Failure(MissingVideoError)
    else
      var refs := References(p);
      Success(Payload(
        p.model,
        Config(
          1,
          p.resolution,
          if p.mode != ExtendVideo then Some(p.aspectRatio) else None,
          if p.mode == FramesToVideo then ImageOf(FinalEndFrame(p)) else None,
          if p.mode == ReferencesToVideo && |refs| > 0 then Some(refs) else None),
        if p.prompt != "" then Some(p.prompt) else None,
        if p.mode == FramesToVideo then ImageOf(p.startFrame) else None,
        if p.mode == ExtendVideo then p.inputVideoObject else None))
  }

  /** The payload construction of `generateVideo`: fields are set one by
      one on a fresh configuration, and the references are pushed in a
      loop. */
  method GenerateVideoPayload(params: Params) returns (r: Result<Payload, string>)
    ensures r == RequestPayload(params)
  {
    var config := Config(1, params.resolution, None, None, None);
    if params.mode != ExtendVideo {
      config := config.(aspectRatio := Some(params.aspectRatio));
    }
    var payload := Payload(params.model, config, None, None, None);
    if params.prompt != "" {
      payload := payload.(prompt := Some(params.prompt));
    }
    if params.mode == FramesToVideo {
      if params.startFrame.Some? {
        payload := payload.(image := Some(ToImage(params.startFrame.value)));
      }
      var finalEndFrame := if params.isLooping then params.startFrame else params.endFrame;
      if finalEndFrame.Some? {
        payload := payload.(config := payload.config.(lastFrame := Some(ToImage(finalEndFrame.value))));
      }
    } else if params.mode == ReferencesToVideo {
      var referenceImagesPayload: seq<ReferenceImage> := [];
      if params.referenceImages.Some? {
        var images := params.referenceImages.value;
        for i := 0 to |images|
          invariant |referenceImagesPayload| == i
          invariant forall j :: 0 <= j < i ==>
                      referenceImagesPayload[j] == ReferenceImage(ToImage(images[j]), AssetReference)
        {
          referenceImagesPayload := referenceImagesPayload + [ReferenceImage(ToImage(images[i]), AssetReference)];
        }
      }
      if params.styleImage.Some? {
        referenceImagesPayload := referenceImagesPayload + [ReferenceImage(ToImage(params.styleImage.value), StyleReference)];
      }
      assert referenceImagesPayload == References(params);
      if |referenceImagesPayload| > 0 {
        payload := payload.(config := payload.config.(referenceImages := Some(referenceImagesPayload)));
      }
    } else if params.mode == ExtendVideo {
      if params.inputVideoObject.Some? {
        payload := payload.(video := params.inputVideoObject);
      } else {
        return Failure(MissingVideoError);
      }
    }
    r := Success(payload);
  }

  // ---------------------------------------------------------------------
  // What the request says

  /** The aspect ratio is sent exactly when the mode is not an extension,
      and the prompt exactly when it is non-empty. */
  lemma AspectRatioAndPrompt(p: Params)
    requires RequestPayload(p).Success?
    ensures var q := RequestPayload(p).value;
      && (q.config.aspectRatio.Some? <==> p.mode != ExtendVideo)
      && (q.config.aspectRatio.Some? ==> q.config.aspectRatio.value == p.aspectRatio)
      && (q.prompt.Some? <==> p.prompt != "")
      && (q.prompt.Some? ==> q.prompt.value == p.prompt)
  {
  }

  /** From frames: the start frame opens the video when present; the
      closing frame is the start frame when looping and the end frame
      otherwise, each sent only when present. */
  lemma FramesRequest(p: Params)
    requires p.mode == FramesToVideo
    ensures var q := RequestPayload(p).value;
      && RequestPayload(p).Success?
      && (q.image.Some? <==> p.startFrame.Some?)
      && (p.startFrame.Some? ==> q.image.value == Image(p.startFrame.value.base64, p.startFrame.value.fileType))
      && (p.isLooping ==> q.config.lastFrame == q.image)
      && (!p.isLooping ==> (q.config.lastFrame.Some? <==> p.endFrame.Some?))
      && (!p.isLooping && p.endFrame.Some? ==>
            q.config.lastFrame.value == Image(p.endFrame.value.base64, p.endFrame.value.fileType))
      && q.config.referenceImages.None? && q.video.None?
  {
  }

  /** From references: the asset images in their order, each as an asset
      reference, then the style image as the style reference; the list is
      sent only when it is not empty. */
  lemma {:induction false} ReferencesRequest(p: Params)
    requires p.mode == ReferencesToVideo
    ensures var q := RequestPayload(p).value;
      var assets := if p.referenceImages.Some? then p.referenceImages.value else [];
      && RequestPayload(p).Success?
      && (q.config.referenceImages.Some? <==> |assets| > 0 || p.styleImage.Some?)
      && (q.config.referenceImages.Some? ==>
            var refs := q.config.referenceImages.value;
            && |refs| == |assets| + (if p.styleImage.Some? then 1 else 0)
            && (forall i :: 0 <= i < |assets| ==>
                  refs[i] == ReferenceImage(Image(assets[i].base64, assets[i].fileType), AssetReference))
            && (p.styleImage.Some? ==>
                  refs[|refs| - 1] == ReferenceImage(Image(p.styleImage.value.base64, p.styleImage.value.fileType), StyleReference)))
      && q.image.None? && q.config.lastFrame.None? && q.video.None?
  {
    var assets := if p.referenceImages.Some? then p.referenceImages.value else [];
    var head := seq(|assets|, i requires 0 <= i < |assets| => ReferenceImage(ToImage(assets[i]), AssetReference));
    var style := if p.styleImage.Some? then [ReferenceImage(ToImage(p.styleImage.value), StyleReference)] else [];
    assert References(p) == head + style;
    assert forall i :: 0 <= i < |assets| ==> (head + style)[i] == head[i];
  }

  /** Extending passes the input video on and sends neither frames nor
      references nor an aspect ratio. */
  lemma ExtendRequest(p: Params, v: VideoObject)
    requires p.mode == ExtendVideo && p.inputVideoObject == Some(v)
    ensures var q := RequestPayload(p).value;
      && RequestPayload(p).Success?
      && q.video == Some(v)
      && q.config.aspectRatio.None? && q.image.None?
      && q.config.lastFrame.None? && q.config.referenceImages.None?
  {
  }

  /** From text: nothing but the prompt and the configuration. */
  lemma TextRequest(p: Params)
    requires p.mode == TextToVideo
    ensures var q := RequestPayload(p).value;
      && RequestPayload(p).Success?
      && q.image.None? && q.video.None?
      && q.config.lastFrame.None? && q.config.referenceImages.None?
  {
  }
}
