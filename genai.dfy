/** The request builder, the video poll loop and the response normaliser of
    services/genai.ts. The hosted SDK is replaced by an `Env` value that
    supplies what each SDK call would have returned or thrown. */
module GenAI {
  import opened Wrappers
  import opened Types
  import opened JsString

  const VideoModel := "veo-3.1-fast-generate-preview"
  const ImageGenModel := "gemini-3-pro-image-preview"
  const ImageEditModel := "gemini-2.5-flash-image"
  const AnalysisModel := "gemini-3-pro-preview"
  const FastModel := "gemini-flash-lite-latest"

  const GeneratedCaption := "Generated with Gemini 3 Pro Image"
  const EditedCaption := "Edited with Gemini 2.5 Flash Image"

  const NoAttachmentMessage := "Please upload an image to edit."
  const NoImageMessage := "No image generated"
  const EditFailedMessage := "Image editing failed."
  const NoVideoUriMessage := "Video generation failed or returned no URI"

  /** A thrown `Error`, reduced to its message. */
  datatype Error = Error(message: string)

  /** One part of a request or of a provider reply. `OtherPart` stands for a
      part with neither inline data nor text (a function call, say). */
  datatype Part = InlineData(mimeType: string, data: string) | TextPart(text: string) | OtherPart

  datatype ImageConfig = ImageConfig(aspectRatio: string, imageSize: string)

  datatype VideoConfig = VideoConfig(numberOfVideos: nat, resolution: string, aspectRatio: string)

  datatype ImageInput = ImageInput(imageBytes: string, mimeType: string)

  /** What is handed to the SDK: `generateContent` or `generateVideos`. */
  datatype Request =
    | ContentRequest(model: string, parts: seq<Part>, imageConfig: Option<ImageConfig>)
    | VideoRequest(model: string, prompt: string, config: VideoConfig, image: Option<ImageInput>)

  /** The reply of `generateContent`, with the optional links of
      `response.candidates?.[0]?.content?.parts` and the `text` accessor. */
  datatype Content = Content(parts: Option<seq<Part>>)
  datatype Candidate = Candidate(content: Option<Content>)
  datatype ContentResponse = ContentResponse(candidates: Option<seq<Candidate>>, text: Option<string>)

  /** A long-running video operation, with the optional links of
      `operation.response?.generatedVideos?.[0]?.video?.uri`. */
  datatype VideoFile = VideoFile(uri: Option<string>)
  datatype GeneratedVideo = GeneratedVideo(video: Option<VideoFile>)
  datatype VideosResponse = VideosResponse(generatedVideos: Option<seq<GeneratedVideo>>)
  datatype Operation = Operation(done: bool, response: Option<VideosResponse>)

  /** Everything the function observes outside itself: whether the key
      widget exists and reports a selected key, the API key, and what each
      SDK call returns or throws. `videoPolls` lists the successive replies
      of `getVideosOperation`; it is finite, so it can run out. */
  datatype Env = Env(
    studioPresent: bool,
    hasSelectedKey: bool,
    apiKey: string,
    contentReply: Result<ContentResponse, Error>,
    videoStart: Result<Operation, Error>,
    videoPolls: seq<Result<Operation, Error>>)

  datatype MediaType = ImageMedia | VideoMedia

  /** The normalised result `{text?, mediaUrl?, mediaType?}`. */
  datatype GenResult = GenResult(text: Option<string>, mediaUrl: Option<string>, mediaType: Option<MediaType>)

  /** How the returned promise ends: resolved, rejected, or still waiting
      because every supplied poll reply said the video was not done. */
  datatype Outcome = Resolved(result: GenResult) | Rejected(error: Error) | Pending

  /** Where the poll loop stopped: at a finished operation after `fetches`
      polls, at a poll that threw, or with the supplied replies used up. */
  datatype PollState = Finished(op: Operation, fetches: nat) | PollThrew(error: Error, fetches: nat) | StillRunning

  // ---------------------------------------------------------------------
  // Paid-key check

  predicate NeedsPaidKey(mode: AppMode) {
    mode.VideoGen? || mode.ImageGen?
  }

  /** `ensurePaidKey` runs only for video and image generation, and opens the
      key selector only when the widget exists and no key is selected. */
  function KeySelectorOpened(mode: AppMode, studioPresent: bool, hasSelectedKey: bool): (opens: bool)
    ensures opens ==> mode == VideoGen || mode == ImageGen
    ensures opens ==> studioPresent && !hasSelectedKey
    ensures (mode == VideoGen || mode == ImageGen) && studioPresent && !hasSelectedKey ==> opens
  {
    NeedsPaidKey(mode) && studioPresent && !hasSelectedKey
  }

  // ---------------------------------------------------------------------
  // Request builder

  function InlineOf(a: Attachment): Part {
    InlineData(a.mimeType, a.base64)
  }

  /** The request each mode sends, stated clause by clause. */
  predicate RequestFor(mode: AppMode, prompt: string, attachment: Option<Attachment>,
                       settings: GenerationSettings, req: Request)
  {
    match mode
    case Chat =>
      && req.ContentRequest?
      && req.imageConfig.None?
      && req.model == (if attachment.Some? then AnalysisModel else FastModel)
      && |req.parts| == (if attachment.Some? then 2 else 1)
      && req.parts[|req.parts| - 1] == TextPart(prompt)
      && (attachment.Some? ==> req.parts[0] == InlineOf(attachment.value))
    case ImageGen =>
      && req.ContentRequest?
      && req.model == ImageGenModel
      && req.parts == [TextPart(prompt)]
      && req.imageConfig == Some(ImageConfig(settings.aspectRatio, settings.imageSize))
    case ImageEdit =>
      && attachment.Some?
      && req.ContentRequest?
      && req.model == ImageEditModel
      && req.parts == [InlineOf(attachment.value), TextPart(prompt)]
      && req.imageConfig.None?
    case VideoGen =>
      && req.VideoRequest?
      && req.model == VideoModel
      && req.prompt == prompt
      && req.config.numberOfVideos == 1
      && req.config.resolution == "1080p"
      && (req.config.aspectRatio == "9:16" <==> settings.aspectRatio == "9:16")
      && (req.config.aspectRatio == "9:16" || req.config.aspectRatio == "16:9")
      && (attachment.None? ==> req.image.None?)
      && (attachment.Some? ==> req.image == Some(ImageInput(attachment.value.base64, attachment.value.mimeType)))
  }

  /** The description above fixes the request: at most one request fits it. */
  lemma RequestForDeterministic(mode: AppMode, prompt: string, attachment: Option<Attachment>,
                                settings: GenerationSettings, a: Request, b: Request)
    requires RequestFor(mode, prompt, attachment, settings, a)
    requires RequestFor(mode, prompt, attachment, settings, b)
    ensures a == b
  {
  }

  /** Builds the request of one mode. ImageEdit without an attachment fails
      before any call, with the fixed message. */
  method BuildRequest(mode: AppMode, prompt: string, attachment: Option<Attachment>,
                      settings: GenerationSettings) returns (r: Result<Request, Error>)
    ensures r.Failure? <==> mode == ImageEdit && attachment.None?
    ensures r.Failure? ==> r.error == Error(NoAttachmentMessage)
    ensures r.Success? ==> RequestFor(mode, prompt, attachment, settings, r.value)
  {
    match mode {
      case VideoGen =>
        var config := VideoConfig(1, "1080p", if settings.aspectRatio == "9:16" then "9:16" else "16:9");
        var request := VideoRequest(VideoModel, prompt, config, None);
        if attachment.Some? {
          request := request.(image := Some(ImageInput(attachment.value.base64, attachment.value.mimeType)));
        }
        r := Success(request);
      case ImageGen =>
        r := Success(ContentRequest(ImageGenModel, [TextPart(prompt)],
                                    Some(ImageConfig(settings.aspectRatio, settings.imageSize))));
      case ImageEdit =>
        if attachment.None? {
          r := Failure(Error(NoAttachmentMessage));
        } else {
          r := Success(ContentRequest(ImageEditModel, [InlineOf(attachment.value), TextPart(prompt)], None));
        }
      case Chat =>
        var model := if attachment.Some? then AnalysisModel else FastModel;
        var parts := [TextPart(prompt)];
        if attachment.Some? {
          parts := [InlineOf(attachment.value)] + parts;
        }
        r := Success(ContentRequest(model, parts, None));
    }
  }

  // ---------------------------------------------------------------------
  // Normalising content replies

  /** `response.candidates?.[0]?.content?.parts || []`. */
  function CandidateParts(resp: ContentResponse): seq<Part> {
    match resp.candidates
    case None => []
    case Some(cs) =>
      if cs == [] then []
      else match cs[0].content
        case None => []
        case Some(c) => match c.parts
          case None => []
          case Some(ps) => ps
  }

  predicate HasInline(parts: seq<Part>) {
    exists i :: 0 <= i < |parts| && parts[i].InlineData?
  }

  /** The index of the first part with inline data, if any. */
  function FirstInlineIndex(parts: seq<Part>): (k: Option<nat>)
    ensures k.Some? ==> k.value < |parts| && parts[k.value].InlineData?
    ensures k.Some? ==> forall j :: 0 <= j < k.value ==> !parts[j].InlineData?
    ensures k.None? <==> !HasInline(parts)
    decreases |parts|
  {
    if parts == [] then None
    else if parts[0].InlineData? then Some(0)
    else
      var rest := FirstInlineIndex(parts[1..]);
      assert forall j :: 1 <= j < |parts| ==> parts[j] == parts[1..][j - 1];
      match rest
      case None => None
      case Some(i) => Some(i + 1)
  }

  /** The `for ... of` loop with an early return over the reply's parts. */
  method FindInlinePart(parts: seq<Part>) returns (k: Option<nat>)
    ensures k == FirstInlineIndex(parts)
  {
    var i := 0;
    while i < |parts|
      invariant 0 <= i <= |parts|
      invariant forall j :: 0 <= j < i ==> !parts[j].InlineData?
    {
      if parts[i].InlineData? {
        return Some(i);
      }
      i := i + 1;
    }
    return None;
  }

  function DataUrl(p: Part): string
    requires p.InlineData?
  {
    "data:" + p.mimeType + ";base64," + p.data
  }

  /** The image result built from the first inline part, with a caption. */
  function InlineImage(parts: seq<Part>, caption: string): (res: GenResult)
    requires HasInline(parts)
    ensures exists k :: 0 <= k < |parts| && parts[k].InlineData?
              && (forall j :: 0 <= j < k ==> !parts[j].InlineData?)
              && res.mediaUrl == Some("data:" + parts[k].mimeType + ";base64," + parts[k].data)
    ensures res.mediaType == Some(ImageMedia) && res.text == Some(caption)
  {
    var k := FirstInlineIndex(parts).value;
    GenResult(Some(caption), Some(DataUrl(parts[k])), Some(ImageMedia))
  }

  /** Image generation: the first inline part as a data URL with the fixed
      caption; no inline part is the error "No image generated". */
  function ImageGenOutcome(reply: Result<ContentResponse, Error>): (o: Outcome)
    ensures reply.Failure? ==> o == Rejected(reply.error)
    ensures reply.Success? && HasInline(CandidateParts(reply.value)) ==>
              o == Resolved(InlineImage(CandidateParts(reply.value), GeneratedCaption))
    ensures reply.Success? && !HasInline(CandidateParts(reply.value)) ==>
              o == Rejected(Error(NoImageMessage))
  {
    match reply
    case Failure(e) => Rejected(e)
    case Success(resp) =>
      var parts := CandidateParts(resp);
      match FirstInlineIndex(parts)
      case Some(_) => Resolved(InlineImage(parts, GeneratedCaption))
      case None => Rejected(Error(NoImageMessage))
  }

  /** Image editing: like image generation, but without an inline part a
      non-empty reply text is returned on its own, and only an empty one is
      the error "Image editing failed.". */
  function ImageEditOutcome(reply: Result<ContentResponse, Error>): (o: Outcome)
    ensures reply.Failure? ==> o == Rejected(reply.error)
    ensures reply.Success? && HasInline(CandidateParts(reply.value)) ==>
              o == Resolved(InlineImage(CandidateParts(reply.value), EditedCaption))
    ensures reply.Success? && !HasInline(CandidateParts(reply.value)) && Truthy(reply.value.text) ==>
              o == Resolved(GenResult(reply.value.text, None, None))
    ensures reply.Success? && !HasInline(CandidateParts(reply.value)) && !Truthy(reply.value.text) ==>
              o == Rejected(Error(EditFailedMessage))
  {
    match reply
    case Failure(e) => Rejected(e)
    case Success(resp) =>
      var parts := CandidateParts(resp);
      match FirstInlineIndex(parts)
      case Some(_) => Resolved(InlineImage(parts, EditedCaption))
      case None =>
        if Truthy(resp.text) then Resolved(GenResult(resp.text, None, None))
        else Rejected(Error(EditFailedMessage))
  }

  /** Chat: a thrown call rejects with its error; otherwise the reply text
      alone, possibly absent. */
  function ChatOutcome(reply: Result<ContentResponse, Error>): (o: Outcome)
    ensures o.Resolved? <==> reply.Success?
    ensures o.Resolved? ==> o.result.text == reply.value.text && o.result.mediaUrl.None? && o.result.mediaType.None?
    ensures reply.Failure? ==> o == Rejected(reply.error)
  {
    match reply
    case Failure(e) => Rejected(e)
    case Success(resp) => Resolved(GenResult(resp.text, None, None))
  }

  // ---------------------------------------------------------------------
  // Video polling

  /** The poll loop from the `i`-th supplied reply onwards, `op` being the
      operation in hand. */
  function PollFrom(op: Operation, polls: seq<Result<Operation, Error>>, i: nat): PollState
    requires i <= |polls|
    decreases |polls| - i
  {
    if op.done then Finished(op, i)
    else if i == |polls| then StillRunning
    else match polls[i]
      case Failure(e) => PollThrew(e, i + 1)
      case Success(next) => PollFrom(next, polls, i + 1)
  }

  /** Every poll from the `i`-th up to (not including) the `n`-th returned an
      operation that was not done. */
  predicate QuietBetween(polls: seq<Result<Operation, Error>>, i: nat, n: nat)
    requires i <= n <= |polls|
  {
    forall j :: i <= j < n ==> polls[j].Success? && !polls[j].value.done
  }

  /** What the loop promises: it ends at the first done operation (the one
      in hand, or the reply of the last poll made), or at the first poll that
      threw, or keeps waiting when no supplied operation is done. */
  lemma {:induction false} PollFromSpec(op: Operation, polls: seq<Result<Operation, Error>>, i: nat)
    requires i <= |polls|
    ensures var s := PollFrom(op, polls, i);
      s.Finished? ==>
        && i <= s.fetches <= |polls|
        && s.op.done
        && (s.fetches == i ==> s.op == op)
        && (s.fetches > i ==>
              && !op.done
              && polls[s.fetches - 1] == Success(s.op)
              && QuietBetween(polls, i, s.fetches - 1))
    ensures var s := PollFrom(op, polls, i);
      s.PollThrew? ==>
        && i < s.fetches <= |polls|
        && !op.done
        && polls[s.fetches - 1] == Failure(s.error)
        && QuietBetween(polls, i, s.fetches - 1)
    ensures var s := PollFrom(op, polls, i);
      s.StillRunning? ==> !op.done && QuietBetween(polls, i, |polls|)
    decreases |polls| - i
  {
    if !op.done && i < |polls| && polls[i].Success? {
      PollFromSpec(polls[i].value, polls, i + 1);
    }
  }

  /** Conversely, if the first `n - 1` polls say "not done" and the `n`-th
      returns a done operation, the loop stops there with that operation. */
  lemma {:induction false} PollStopsAtFirstDone(start: Operation, polls: seq<Result<Operation, Error>>, n: nat)
    requires 0 < n <= |polls|
    requires !start.done && QuietBetween(polls, 0, n - 1)
    requires polls[n - 1].Success? && polls[n - 1].value.done
    ensures PollFrom(start, polls, 0) == Finished(polls[n - 1].value, n)
  {
    var i := 0;
    var op := start;
    while i < n - 1
      invariant 0 <= i <= n - 1
      invariant i == 0 ==> op == start
      invariant i > 0 ==> op == polls[i - 1].value
      invariant PollFrom(op, polls, i) == PollFrom(start, polls, 0)
    {
      op := polls[i].value;
      i := i + 1;
    }
  }

  /** `while (!operation.done) { operation = getVideosOperation(...) }`: each
      iteration consumes the next supplied reply; the 5-second sleep is not
      modelled. */
  method PollUntilDone(start: Operation, polls: seq<Result<Operation, Error>>) returns (s: PollState)
    ensures s == PollFrom(start, polls, 0)
  {
    var op := start;
    var i := 0;
    while !op.done
      invariant 0 <= i <= |polls|
      invariant PollFrom(op, polls, i) == PollFrom(start, polls, 0)
      decreases |polls| - i
    {
      if i == |polls| {
        return StillRunning;
      }
      match polls[i] {
        case Failure(e) =>
          return PollThrew(e, i + 1);
        case Success(next) =>
          op := next;
      }
      i := i + 1;
    }
    return Finished(op, i);
  }

  /** `operation.response?.generatedVideos?.[0]?.video?.uri`. */
  function VideoUri(op: Operation): Option<string> {
    match op.response
    case None => None
    case Some(r) => match r.generatedVideos
      case None => None
      case Some(vs) =>
        if vs == [] then None
        else match vs[0].video
          case None => None
          case Some(v) => v.uri
  }

  /** Video generation: a thrown start or poll rejects with that error; a
      finished operation without a (non-empty) URI rejects with the fixed
      message; otherwise the URI with the key suffix, as a video. */
  function VideoOutcome(start: Result<Operation, Error>, polls: seq<Result<Operation, Error>>,
                        apiKey: string): (o: Outcome)
    ensures start.Failure? ==> o == Rejected(start.error)
    ensures start.Success? ==> var s := PollFrom(start.value, polls, 0);
      && (s.StillRunning? <==> o.Pending?)
      && (s.PollThrew? ==> o == Rejected(s.error))
      && (s.Finished? && !Truthy(VideoUri(s.op)) ==> o == Rejected(Error(NoVideoUriMessage)))
      && (s.Finished? && Truthy(VideoUri(s.op)) ==>
            o == Resolved(GenResult(None, Some(VideoUri(s.op).value + "&key=" + apiKey), Some(VideoMedia))))
  {
    match start
    case Failure(e) => Rejected(e)
    case Success(op) =>
      match PollFrom(op, polls, 0)
      case StillRunning => Pending
      case PollThrew(e, _) => Rejected(e)
      case Finished(last, _) =>
        var uri := VideoUri(last);
        if !Truthy(uri) then Rejected(Error(NoVideoUriMessage))
        else Resolved(GenResult(None, Some(uri.value + "&key=" + apiKey), Some(VideoMedia)))
  }

  // ---------------------------------------------------------------------
  // The whole function

  /** How `generateResponse` ends, mode by mode. */
  function ExpectedOutcome(mode: AppMode, attachment: Option<Attachment>, env: Env): (o: Outcome)
    ensures mode == ImageEdit && attachment.None? ==> o == Rejected(Error(NoAttachmentMessage))
    ensures o.Pending? ==> mode == VideoGen
    ensures o.Resolved? && o.result.mediaType == Some(VideoMedia) ==> mode == VideoGen
    ensures o.Resolved? && o.result.mediaType == Some(ImageMedia) ==> mode == ImageGen || mode == ImageEdit
    ensures mode == Chat ==> o == ChatOutcome(env.contentReply)
    ensures mode == ImageGen ==> o == ImageGenOutcome(env.contentReply)
    ensures mode == ImageEdit && attachment.Some? ==> o == ImageEditOutcome(env.contentReply)
    ensures mode == VideoGen ==> o == VideoOutcome(env.videoStart, env.videoPolls, env.apiKey)
  {
    match mode
    case Chat => ChatOutcome(env.contentReply)
    case ImageGen => ImageGenOutcome(env.contentReply)
    case ImageEdit =>
      if attachment.None? then Rejected(Error(NoAttachmentMessage))
      else ImageEditOutcome(env.contentReply)
    case VideoGen => VideoOutcome(env.videoStart, env.videoPolls, env.apiKey)
  }

  /** `generateResponse`: whether the paid-key check ran and opened the key
      selector, which request (if any) reached the SDK, and how it ended. */
  method GenerateResponse(mode: AppMode, prompt: string, attachment: Option<Attachment>,
                          settings: GenerationSettings, env: Env)
    returns (keyChecked: bool, selectorOpened: bool, call: Option<Request>, out: Outcome)
    ensures keyChecked <==> mode == VideoGen || mode == ImageGen
    ensures selectorOpened == KeySelectorOpened(mode, env.studioPresent, env.hasSelectedKey)
    ensures call.None? <==> mode == ImageEdit && attachment.None?
    ensures call.Some? ==> RequestFor(mode, prompt, attachment, settings, call.value)
    ensures out == ExpectedOutcome(mode, attachment, env)
  {
    keyChecked := NeedsPaidKey(mode);
    selectorOpened := keyChecked && env.studioPresent && !env.hasSelectedKey;
    var built := BuildRequest(mode, prompt, attachment, settings);
    if built.Failure? {
      call := None;
      out := Rejected(built.error);
      return;
    }
    call := Some(built.value);
    match mode {
      case VideoGen =>
        match env.videoStart {
          case Failure(e) =>
            out := Rejected(e);
          case Success(op) =>
            var s := PollUntilDone(op, env.videoPolls);
            match s {
              case StillRunning =>
                out := Pending;
              case PollThrew(e, _) =>
                out := Rejected(e);
              case Finished(last, _) =>
                var uri := VideoUri(last);
                if !Truthy(uri) {
                  out := Rejected(Error(NoVideoUriMessage));
                } else {
                  out := Resolved(GenResult(None, Some(uri.value + "&key=" + env.apiKey), Some(VideoMedia)));
                }
            }
        }
      case ImageGen =>
        match env.contentReply {
          case Failure(e) =>
            out := Rejected(e);
          case Success(resp) =>
            var k := FindInlinePart(CandidateParts(resp));
            if k.Some? {
              out := Resolved(InlineImage(CandidateParts(resp), GeneratedCaption));
            } else {
              out := Rejected(Error(NoImageMessage));
            }
        }
      case ImageEdit =>
        match env.contentReply {
          case Failure(e) =>
            out := Rejected(e);
          case Success(resp) =>
            var k := FindInlinePart(CandidateParts(resp));
            if k.Some? {
              out := Resolved(InlineImage(CandidateParts(resp), EditedCaption));
            } else if Truthy(resp.text) {
              out := Resolved(GenResult(resp.text, None, None));
            } else {
              out := Rejected(Error(EditFailedMessage));
            }
        }
      case Chat =>
        match env.contentReply {
          case Failure(e) =>
            out := Rejected(e);
          case Success(resp) =>
            out := Resolved(GenResult(resp.text, None, None));
        }
    }
  }
}
