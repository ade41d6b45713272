/** The decision rules inside the web routes of app.py: the fallback intent
    classifier, the choice of video mode in the video route, the MIME type
    of a download, and the checks `execute_task` makes before dispatching.
    Request parsing, the generators and the responses are not modelled. */
module App {
  import opened Text
  import opened Wrappers
  import opened DecisionAgent
  import Scenes

  // ---------------------------------------------------------------------------
  // Fallback intent analysis
  // ---------------------------------------------------------------------------

  const SimpleVideoWords: seq<string> := ["視頻", "视频", "video", "動畫", "动画"]
  const SimpleInterpolationWords: seq<string> := ["首尾", "插值", "過渡", "转换"]
  const SimpleReasoning := "基於簡單規則分析"

  datatype SimpleAnalysis = SimpleAnalysis(taskType: TaskType, prompt: string, fileCount: int, reasoning: string)

  /** `simple_intent_analysis`: the attachment count picks the family, one
      keyword list picks within it; the message itself is the prompt. */
  function SimpleIntentAnalysis(message: string, fileCount: int): (r: SimpleAnalysis)
    ensures r.prompt == message && r.fileCount == fileCount && r.reasoning == SimpleReasoning
    ensures fileCount == 0 ==>
      (r.taskType == TextToVideo <==> ContainsAny(Lower(message), SimpleVideoWords))
      && (r.taskType == TextToImage <==> !ContainsAny(Lower(message), SimpleVideoWords))
    ensures fileCount == 1 ==>
      (r.taskType == ImageToVideo <==> ContainsAny(Lower(message), SimpleVideoWords))
      && (r.taskType == ImageToImage <==> !ContainsAny(Lower(message), SimpleVideoWords))
    ensures fileCount == 2 ==>
      (r.taskType == FirstToLastFrame <==> ContainsAny(Lower(message), SimpleInterpolationWords))
      && (r.taskType == ImageToImage <==> !ContainsAny(Lower(message), SimpleInterpolationWords))
    ensures fileCount < 0 || fileCount > 2 ==> r.taskType == ImageToImage
  {
    var lowered := Lower(message);
    var taskType :=
      if fileCount == 0 then
        if ContainsAny(lowered, SimpleVideoWords) then TextToVideo else TextToImage
      else if fileCount == 1 then
        if ContainsAny(lowered, SimpleVideoWords) then ImageToVideo else ImageToImage
      else if fileCount == 2 then
        if ContainsAny(lowered, SimpleInterpolationWords) then FirstToLastFrame else ImageToImage
      else ImageToImage;
    SimpleAnalysis(taskType, message, fileCount, SimpleReasoning)
  }

  /** The fallback never asks for more attachments than it was given: the
      type it picks draws no attachment error from `validate_input`. */
  lemma FallbackNeedsNoMoreFiles(message: string, fileCount: int)
    ensures var errors := ValidationErrors(SimpleIntentAnalysis(message, fileCount).taskType.Value(), message, fileCount);
      ImageToImageNeedsImage !in errors && ImageToVideoNeedsImage !in errors
      && InterpolationNeedsTwoImages !in errors && BatchNeedsReference !in errors
  {
    var t := SimpleIntentAnalysis(message, fileCount).taskType;
    var errors := ValidationErrors(t.Value(), message, fileCount);
    assert t != BatchImageGeneration && t != Multimodal;
    if t == ImageToImage {
      assert fileCount != 0;
      assert errors == ImageToImageErrors(message, fileCount);
      assert errors == [] || errors == [ImageToImageNeedsInstruction];
    } else if t == TextToImage {
      assert errors == [] || errors == [TextToImageNeedsDescription];
    } else if t == TextToVideo {
      assert errors == [] || errors == [TextToVideoNeedsDescription];
    }
  }

  /** With two attachments the fallback's interpolation words, except the
      simplified 转换, are also interpolation signals for the main classifier. */
  lemma FallbackInterpolationAgrees(message: string)
    requires SimpleIntentAnalysis(message, 2).taskType == FirstToLastFrame
    requires !Contains(Lower(message), "转换")
    ensures Classify(message, 2) == FirstToLastFrame
  {
    var lowered := Lower(message);
    var k :| 0 <= k < |SimpleInterpolationWords| && Contains(lowered, SimpleInterpolationWords[k]);
    assert k < 3;
    assert InterpolationKeywords[k] == SimpleInterpolationWords[k];
    assert ContainsAny(lowered, InterpolationKeywords);
  }

  // ---------------------------------------------------------------------------
  // Video route
  // ---------------------------------------------------------------------------

  datatype VideoMode = FirstToLast | FromImage | FromText

  const NeedPrompt := "請提供提示詞"
  const NeedFrames := "請上傳首幀和尾幀圖片"
  const ChooseFrames := "請選擇首幀和尾幀圖片"

  /** The generator `generate_video` calls, or the message of its 400
      answer. An upload is its file name, `None` when the field is absent. */
  function VideoModeOf(prompt: string, mode: string, firstFrame: Option<string>,
                       lastFrame: Option<string>, image: Option<string>): (r: Result<VideoMode, string>)
    ensures r == Err(NeedPrompt) <==> prompt == "" && mode != "first_to_last"
    ensures r == Ok(FirstToLast) <==>
      mode == "first_to_last" && firstFrame.Some? && lastFrame.Some?
      && firstFrame.value != "" && lastFrame.value != ""
    ensures r == Ok(FromImage) <==>
      prompt != "" && mode == "image_to_video" && image.Some? && image.value != ""
    ensures r.Err? ==> r.error in {NeedPrompt, NeedFrames, ChooseFrames}
  {
    if prompt == "" && mode != "first_to_last" then Err(NeedPrompt)
    else if mode == "first_to_last" then
      if firstFrame.None? || lastFrame.None? then Err(NeedFrames)
      else if firstFrame.value == "" || lastFrame.value == "" then Err(ChooseFrames)
      else Ok(FirstToLast)
    else if mode == "image_to_video" && image.Some? && image.value != "" then Ok(FromImage)
    else Ok(FromText)
  }

  /** Any other mode, and an image mode without a usable image, falls back to
      text-to-video as long as there is a prompt. */
  lemma TextIsTheFallbackMode(prompt: string, mode: string, firstFrame: Option<string>,
                              lastFrame: Option<string>, image: Option<string>)
    requires prompt != "" && mode != "first_to_last"
    requires mode != "image_to_video" || image.None? || image.value == ""
    ensures VideoModeOf(prompt, mode, firstFrame, lastFrame, image) == Ok(FromText)
  {
  }

  // ---------------------------------------------------------------------------
  // Download route
  // ---------------------------------------------------------------------------

  const VideoMime := "video/mp4"
  const ImageMime := "image/png"
  const BinaryMime := "application/octet-stream"

  /** The MIME type `download_file` sends, chosen by the file name's ending. */
  function MimeType(filename: string): (m: string)
    ensures m in {VideoMime, ImageMime, BinaryMime}
    ensures m == VideoMime <==> EndsWith(filename, ".mp4")
    ensures m == ImageMime <==> !EndsWith(filename, ".mp4") && (EndsWith(filename, ".png") || EndsWith(filename, ".jpg"))
  {
    if EndsWith(filename, ".mp4") then VideoMime
    else if EndsWith(filename, ".png") || EndsWith(filename, ".jpg") then ImageMime
    else BinaryMime
  }

  /** A name ending in the extension has that ending. */
  lemma EndsWithSuffix(name: string, ext: string)
    ensures EndsWith(name + ext, ext)
  {
    assert (name + ext)[|name + ext| - |ext|..] == ext;
  }

  /** A JPEG is sent as PNG, and a video as MP4, whatever the name before the
      extension. */
  lemma MimeOfExtension(name: string)
    ensures MimeType(name + ".jpg") == ImageMime
    ensures MimeType(name + ".png") == ImageMime
    ensures MimeType(name + ".mp4") == VideoMime
  {
    EndsWithSuffix(name, ".jpg");
    EndsWithSuffix(name, ".png");
    EndsWithSuffix(name, ".mp4");
    var jpg := name + ".jpg";
    var png := name + ".png";
    assert jpg[|jpg| - 1] == 'g';
    assert png[|png| - 1] == 'g';
  }

  // ---------------------------------------------------------------------------
  // Task execution
  // ---------------------------------------------------------------------------

  const ImageToVideoNeedsUpload := "圖生視頻需要上傳圖片"
  const UnknownTaskPrefix := "未知的任務類型: "
  /** The text of the IndexError that indexing an empty string raises. */
  const StringIndexOutOfRange := "string index out of range"

  /** The task types `execute_task` dispatches on, by their string values. */
  const ExecutableTypes: seq<TaskType> :=
    [TextToImage, BatchImageGeneration, ImageToImage, ImageToVideo, FirstToLastFrame, TextToVideo]

  /** The branch `execute_task` takes for a task type (`None` when the
      request has none), a prompt and a number of file paths, or the message
      of the error it raises before calling any generator. The batch branch
      first plans the scenes with the scene parser as written, which can
      raise. */
  function ExecuteDispatch(taskType: Option<string>, prompt: string, pathCount: nat): (r: Result<TaskType, string>)
    ensures r.Ok? ==> taskType == Some(r.value.Value()) && r.value in ExecutableTypes
    ensures r.Ok? ==> (r.value == ImageToVideo ==> pathCount >= 1) && (r.value == FirstToLastFrame ==> pathCount >= 2)
    ensures taskType == Some(BatchImageGeneration.Value()) ==>
      (r.Err? <==> Scenes.ScenesOf(prompt, Scenes.AsWritten).Err?)
      && (r.Err? ==> r.error == StringIndexOutOfRange)
    ensures taskType.None? ==> r == Err(UnknownTaskPrefix + "None")
    ensures taskType.Some? && taskType.value !in
      {"text_to_image", "batch_image_generation", "image_to_image", "image_to_video", "first_to_last_frame", "text_to_video"}
      ==> r == Err(UnknownTaskPrefix + taskType.value)
  {
    match taskType
    case None => Err(UnknownTaskPrefix + "None")
    case Some(t) =>
      if t == "text_to_image" then Ok(TextToImage)
      else if t == "batch_image_generation" then
        if Scenes.ScenesOf(prompt, Scenes.AsWritten).Err? then Err(StringIndexOutOfRange) else Ok(BatchImageGeneration)
      else if t == "image_to_image" then Ok(ImageToImage)
      else if t == "image_to_video" then
        if pathCount == 0 then Err(ImageToVideoNeedsUpload) else Ok(ImageToVideo)
      else if t == "first_to_last_frame" then
        if pathCount < 2 then Err(InterpolationNeedsTwoImages) else Ok(FirstToLastFrame)
      else if t == "text_to_video" then Ok(TextToVideo)
      else Err(UnknownTaskPrefix + t)
  }

  /** For the two types with attachment rules, `execute_task` refuses exactly
      the inputs `validate_input` flags. */
  lemma ExecuteAgreesWithValidation(t: TaskType, message: string, pathCount: nat)
    requires t == ImageToVideo || t == FirstToLastFrame
    ensures ExecuteDispatch(Some(t.Value()), message, pathCount).Err? <==> ValidationErrors(t.Value(), message, pathCount) != []
  {
  }

  /** A multimodal request passes validation but `execute_task` has no branch
      for it. */
  lemma MultimodalIsNotExecutable(message: string, pathCount: nat)
    ensures ValidationErrors(Multimodal.Value(), message, pathCount) == []
    ensures ExecuteDispatch(Some(Multimodal.Value()), message, pathCount) == Err(UnknownTaskPrefix + "multimodal")
  {
  }

  /** A batch request whose only label has no scene text fails in the
      planner, before any image is generated. */
  lemma EmptySceneBatchFails(prompt: string, pathCount: nat)
    requires prompt == "場景一："
    ensures ExecuteDispatch(Some(BatchImageGeneration.Value()), prompt, pathCount) == Err(StringIndexOutOfRange)
  {
    Scenes.EmptySceneRaises(prompt);
  }

  /** Every type the main classifier returns has a branch, and so has every
      type the fallback returns. */
  lemma ClassifiedTypesAreExecutable(message: string, fileCount: int)
    ensures Classify(message, fileCount) in ExecutableTypes
    ensures SimpleIntentAnalysis(message, fileCount).taskType in ExecutableTypes
  {
  }
}
