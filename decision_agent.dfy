/** The rule-based decision agent of core/decision_agent.py: it classifies a
    message and an attachment count into a task type, extracts the prompt and
    the generation parameters, scores its confidence, explains itself,
    validates the input of a task type and expands an intent into numbered
    execution steps. */
module DecisionAgent {
  import opened Text
  import opened Wrappers
  import Patterns
  import Scenes

  // ---------------------------------------------------------------------------
  // Task types and keyword tables
  // ---------------------------------------------------------------------------

  datatype TaskType =
    | TextToImage
    | ImageToImage
    | ImageToVideo
    | TextToVideo
    | FirstToLastFrame
    | Multimodal
    | BatchImageGeneration
  {
    /** The enum's string value, used by the planner and the validator. */
    function Value(): string
    {
      match this
      case TextToImage => "text_to_image"
      case ImageToImage => "image_to_image"
      case ImageToVideo => "image_to_video"
      case TextToVideo => "text_to_video"
      case FirstToLastFrame => "first_to_last_frame"
      case Multimodal => "multimodal"
      case BatchImageGeneration => "batch_image_generation"
    }
  }

  /** No two task types share a value, so the value names the type. */
  lemma ValueInjective(t: TaskType, u: TaskType)
    requires t.Value() == u.Value()
    ensures t == u
  {
  }

  const ImageGenKeywords: seq<string> :=
    ["生成圖片", "畫", "繪製", "創建圖像", "圖片", "插畫", "image", "picture", "photo"]
  const TransformKeywords: seq<string> :=
    ["修改", "轉換", "改變", "調整", "編輯", "transform", "modify", "edit", "change"]
  const VideoKeywords: seq<string> :=
    ["視頻", "影片", "動畫", "動態", "video", "animation", "motion"]
  const InterpolationKeywords: seq<string> :=
    ["首尾", "插值", "過渡", "中間幀", "interpolate", "transition", "morph"]

  /** The batch markers of the classifier, a bare "4" among them. */
  const BatchKeywords: seq<string> :=
    ["四張", "四個", "4張", "4個", "four", "4", "多張", "多個", "batch", "生成四", "create four"]

  /** The batch markers of the confidence score: the classifier's without the last two. */
  const ConfidenceBatchKeywords: seq<string> :=
    ["四張", "四個", "4張", "4個", "four", "4", "多張", "多個", "batch"]

  const SceneKeywords: seq<string> :=
    ["場景一", "場景二", "場景三", "場景四", "第一張", "第二張", "第三張", "第四張"]

  // ---------------------------------------------------------------------------
  // Classification
  // ---------------------------------------------------------------------------

  /** `_determine_task_type`: an ordered decision table over the attachment
      count and substring tests; the batch rule is tried first. */
  function DetermineTaskType(message: string, fileCount: int): (t: TaskType)
    ensures t != Multimodal
    ensures t == BatchImageGeneration ==> fileCount == 1
    ensures fileCount == 0 ==> t == TextToVideo || t == TextToImage
    ensures fileCount == 1 ==> t == BatchImageGeneration || t == ImageToVideo || t == ImageToImage
    ensures fileCount == 2 ==> t == FirstToLastFrame || t == ImageToImage
    ensures fileCount < 0 || fileCount > 2 ==> t == ImageToImage
  {
    var hasBatch := ContainsAny(Lower(message), BatchKeywords);
    var hasScene := ContainsAny(message, SceneKeywords);
    var hasVideo := ContainsAny(message, VideoKeywords);
    var hasInterpolation := ContainsAny(message, InterpolationKeywords);
    var hasImageGen := ContainsAny(message, ImageGenKeywords);
    var hasTransform := ContainsAny(message, TransformKeywords);
    if fileCount == 1 && (hasBatch || hasScene) then BatchImageGeneration
    else if fileCount == 0 then
      if hasVideo then TextToVideo else TextToImage
    else if fileCount == 1 then
      if hasVideo then ImageToVideo
      else if hasTransform || hasImageGen then ImageToImage
      else if hasVideo then ImageToVideo
      else ImageToImage
    else if fileCount == 2 then
      if hasInterpolation || Contains(message, "首") || Contains(message, "尾")
      then FirstToLastFrame else ImageToImage
    else ImageToImage
  }

  /** `analyze_intent` classifies the lower-cased message. */
  function Classify(message: string, fileCount: int): TaskType
  {
    DetermineTaskType(Lower(message), fileCount)
  }

  /** With one attachment, a batch marker or a scene label decides, ahead of
      every other rule. */
  lemma OneFileBatchFirst(message: string)
    ensures DetermineTaskType(message, 1) == BatchImageGeneration
        <==> ContainsAny(Lower(message), BatchKeywords) || ContainsAny(message, SceneKeywords)
  {
  }

  /** With one attachment and no batch marker or scene label, a video
      keyword gives the image-to-video task, anything else image-to-image. */
  lemma OneFileTable(message: string)
    ensures DetermineTaskType(message, 1)
      == if ContainsAny(Lower(message), BatchKeywords) || ContainsAny(message, SceneKeywords) then BatchImageGeneration
         else if ContainsAny(message, VideoKeywords) then ImageToVideo
         else ImageToImage
  {
  }

  /** Without attachments only the video keywords matter. */
  lemma NoFileTable(message: string)
    ensures DetermineTaskType(message, 0) == (if ContainsAny(message, VideoKeywords) then TextToVideo else TextToImage)
  {
  }

  /** With two attachments, an interpolation keyword or 首/尾 gives the
      first-to-last-frame task, anything else the image-to-image task. */
  lemma TwoFileTable(message: string)
    ensures DetermineTaskType(message, 2) == FirstToLastFrame
        <==> ContainsAny(message, InterpolationKeywords) || Contains(message, "首") || Contains(message, "尾")
  {
  }

  /** Upper and lower case classify alike. */
  lemma ClassifyIgnoresCase(message: string, fileCount: int)
    ensures Classify(Lower(message), fileCount) == Classify(message, fileCount)
  {
    LowerIdempotent(message);
  }

  /** A digit 4 anywhere makes a one-attachment message a batch request:
      "1024x1024" or "4秒" are enough. */
  lemma DigitFourIsBatch(message: string)
    requires Contains(message, "4")
    ensures Classify(message, 1) == BatchImageGeneration
  {
    assert NoAsciiLetters("4");
    ContainsLowerIff(message, "4");
    LowerIdempotent(message);
    assert Contains(Lower(message), BatchKeywords[5]);
  }

  lemma SizeLooksLikeBatch()
    ensures Classify("1024x1024", 1) == BatchImageGeneration
  {
    ContainsAt("1024x1024", "4", 3);
    DigitFourIsBatch("1024x1024");
  }

  /** A message asking to draw a cat, without attachments, is a text-to-image request. */
  lemma DrawCatIsTextToImage()
    ensures Classify("幫我畫一隻貓", 0) == TextToImage
  {
    var m := "幫我畫一隻貓";
    LowerNoUpper(m);
    NoFirstCharNoneContained(m, VideoKeywords);
  }

  /** A message asking to animate the attached picture is an image-to-video request. */
  lemma AnimatePictureIsImageToVideo()
    ensures Classify("把這張圖轉成動畫", 1) == ImageToVideo
  {
    var m := "把這張圖轉成動畫";
    LowerNoUpper(m);
    NoFirstCharNoneContained(m, BatchKeywords);
    NoFirstCharNoneContained(m, SceneKeywords);
    ContainsAt(m, "動畫", 6);
    assert VideoKeywords[2] == "動畫";
  }

  // ---------------------------------------------------------------------------
  // Prompt extraction
  // ---------------------------------------------------------------------------

  const InstructionWords: seq<string> :=
    ["幫我", "請", "生成", "創建", "製作", "畫", "繪製", "help", "create", "generate", "make", "draw"]

  predicate NonEmptyWords(words: seq<string>)
  {
    forall k :: 0 <= k < |words| ==> |words[k]| > 0
  }

  /** Each word removed everywhere in turn, in list order. */
  function RemoveWords(s: string, words: seq<string>): (r: string)
    requires NonEmptyWords(words)
    ensures |r| <= |s|
    decreases |words|
  {
    if |words| == 0 then s else RemoveWords(RemoveAll(s, words[0]), words[1..])
  }

  /** A text holding none of the words is left alone. */
  lemma {:induction false} RemoveWordsAbsent(s: string, words: seq<string>)
    requires NonEmptyWords(words)
    requires !ContainsAny(s, words)
    ensures RemoveWords(s, words) == s
  {
    if |words| > 0 {
      assert !Contains(s, words[0]);
      RemoveAllAbsent(s, words[0]);
      RemoveWordsAbsent(s, words[1..]);
    }
  }

  /** Removing the words from the `i`-th on is removing the `i`-th, then the rest. */
  lemma RemoveWordsStep(s: string, words: seq<string>, i: nat)
    requires NonEmptyWords(words) && i < |words|
    ensures RemoveWords(s, words[i..]) == RemoveWords(RemoveAll(s, words[i]), words[i + 1..])
  {
    assert words[i..][0] == words[i] && words[i..][1..] == words[i + 1..];
  }

  /** The loop of `_extract_prompt` over the instruction words. */
  method RemoveEach(message: string, words: seq<string>) returns (prompt: string)
    requires NonEmptyWords(words)
    ensures prompt == RemoveWords(message, words)
  {
    prompt := message;
    for i := 0 to |words|
      invariant RemoveWords(prompt, words[i..]) == RemoveWords(message, words)
    {
      RemoveWordsStep(prompt, words, i);
      prompt := RemoveAll(prompt, words[i]);
    }
    assert words[|words|..] == [];
  }

  /** `_extract_prompt`: remove the instruction words, then collapse the
      whitespace to single spaces and trim. */
  method ExtractPrompt(message: string) returns (prompt: string)
    ensures prompt == Normalize(RemoveWords(message, InstructionWords))
    ensures Tidy(prompt) && IsStripped(prompt)
  {
    assert NonEmptyWords(InstructionWords);
    var removed := RemoveEach(message, InstructionWords);
    prompt := JoinWith(" ", Words(removed));
    NormalizeTidy(removed);
    TidyIsStripped(prompt);
    prompt := Strip(prompt);
  }

  /** A message without instruction words only has its whitespace tidied. */
  lemma PlainMessagePrompt(message: string)
    requires !ContainsAny(message, InstructionWords)
    ensures Normalize(RemoveWords(message, InstructionWords)) == Normalize(message)
  {
    RemoveWordsAbsent(message, InstructionWords);
  }

  /** Removal is a single pass: removing 幫我 from 幫幫我我 joins a new 幫我,
      which stays in the prompt. */
  lemma RemovalIsSinglePass()
    ensures RemoveWords("幫幫我我", InstructionWords) == "幫我"
  {
    var s := "幫幫我我";
    assert s[..2][1] == '幫';
    assert s[1..][..2] == "幫我" && s[1..][2..] == "我";
    assert RemoveAll(s, "幫我") == "幫我";
    NoFirstCharNoneContained("幫我", InstructionWords[1..]);
    RemoveWordsAbsent("幫我", InstructionWords[1..]);
  }

  // ---------------------------------------------------------------------------
  // Parameters
  // ---------------------------------------------------------------------------

  datatype Style = Realistic | Anime | Artistic | Cinematic
  {
    function Name(): string
    {
      match this
      case Realistic => "realistic"
      case Anime => "anime"
      case Artistic => "artistic"
      case Cinematic => "cinematic"
    }
  }

  /** The style groups, in the order they are tried. */
  const StyleGroups: seq<(Style, seq<string>)> := [
    (Realistic, ["真實", "寫實", "realistic", "photorealistic"]),
    (Anime, ["動漫", "卡通", "anime", "cartoon"]),
    (Artistic, ["藝術", "繪畫", "artistic", "painting"]),
    (Cinematic, ["電影", "影視", "cinematic", "film"])
  ]

  /** The first group with a keyword in `lowered`. */
  function FirstStyle(lowered: string, groups: seq<(Style, seq<string>)>): (r: Option<Style>)
    ensures r.None? <==> forall k :: 0 <= k < |groups| ==> !ContainsAny(lowered, groups[k].1)
    ensures r.Some? ==> exists k :: 0 <= k < |groups| && groups[k].0 == r.value && ContainsAny(lowered, groups[k].1)
                          && forall j :: 0 <= j < k ==> !ContainsAny(lowered, groups[j].1)
  {
    if |groups| == 0 then None
    else if ContainsAny(lowered, groups[0].1) then Some(groups[0].0)
    else
      var r := FirstStyle(lowered, groups[1..]);
      assert forall k :: 1 <= k < |groups| ==> groups[k] == groups[1..][k - 1];
      if r.Some? then
        var k' :| 0 <= k' < |groups| - 1 && groups[1..][k'].0 == r.value && ContainsAny(lowered, groups[1..][k'].1)
                  && forall j :: 0 <= j < k' ==> !ContainsAny(lowered, groups[1..][j].1);
        assert forall j :: 0 <= j < k' + 1 ==> !ContainsAny(lowered, groups[j].1);
        r
      else r
  }

  /** One step of the loop over the style groups. */
  lemma FirstStyleStep(lowered: string, groups: seq<(Style, seq<string>)>, g: nat)
    requires g < |groups|
    ensures FirstStyle(lowered, groups[g..])
      == if ContainsAny(lowered, groups[g].1) then Some(groups[g].0) else FirstStyle(lowered, groups[g + 1..])
  {
    assert groups[g..][0] == groups[g] && groups[g..][1..] == groups[g + 1..];
  }

  /** The `style` parameter, matched case-insensitively. */
  function StyleOf(message: string): Option<Style>
  {
    FirstStyle(Lower(message), StyleGroups)
  }

  /** The parameters: `duration` is always set, `size` and `style` only when found. */
  datatype Params = Params(duration: int, size: Option<string>, style: Option<Style>)

  /** `_extract_parameters`: the duration, then the first size pattern that
      matches, then the first style group that matches. */
  method ExtractParameters(message: string) returns (p: Params)
    ensures 1 <= p.duration <= 10
    ensures p.duration == Patterns.DurationOf(message)
    ensures p.size == Patterns.SizeOf(message)
    ensures p.style == StyleOf(message)
  {
    var duration := Patterns.DurationOf(message);
    var size: Option<string> := None;
    var k := 0;
    while k < |Patterns.SizePatterns|
      invariant 0 <= k <= |Patterns.SizePatterns|
      invariant Patterns.FirstSize(message, Patterns.SizePatterns[k..]) == Patterns.SizeOf(message)
    {
      Patterns.FirstSizeStep(message, Patterns.SizePatterns, k);
      var found := Patterns.SearchSize(message, 0, Patterns.SizePatterns[k]);
      if found.Some? {
        size := Some(Patterns.FormatSize(found.value.0, found.value.1));
        break;
      }
      k := k + 1;
    }
    var lowered := Lower(message);
    var style: Option<Style> := None;
    var g := 0;
    while g < |StyleGroups|
      invariant 0 <= g <= |StyleGroups|
      invariant FirstStyle(lowered, StyleGroups[g..]) == StyleOf(message)
    {
      FirstStyleStep(lowered, StyleGroups, g);
      if ContainsAny(lowered, StyleGroups[g].1) {
        style := Some(StyleGroups[g].0);
        break;
      }
      g := g + 1;
    }
    p := Params(duration, size, style);
  }

  /** A realistic keyword wins over any later group, whatever else the message says. */
  lemma RealisticFirst(message: string)
    requires Contains(Lower(message), "realistic")
    ensures StyleOf(message) == Some(Realistic)
  {
    assert StyleGroups[0].1[2] == "realistic";
  }

  // ---------------------------------------------------------------------------
  // Confidence, in tenths
  // ---------------------------------------------------------------------------

  /** `_calculate_confidence` times ten: 5 plus the bonuses of the task type,
      capped at 10. Unlike the classifier it looks at the message as given,
      except for the batch markers. */
  function ConfidenceTenths(message: string, fileCount: int, t: TaskType): (c: int)
    ensures 5 <= c <= 10
    ensures t == ImageToImage || t == TextToVideo || t == Multimodal ==> c == 5
    ensures t == BatchImageGeneration && fileCount == 1 ==> c >= 7
  {
    var bonus :=
      match t
      case BatchImageGeneration =>
        (if ContainsAny(Lower(message), ConfidenceBatchKeywords) then 4 else 0)
        + (if ContainsAny(message, SceneKeywords) then 3 else 0)
        + (if fileCount == 1 then 2 else 0)
      case TextToImage => if ContainsAny(message, ImageGenKeywords) then 3 else 0
      case ImageToVideo => if ContainsAny(message, VideoKeywords) then 3 else 0
      case FirstToLastFrame => if ContainsAny(message, InterpolationKeywords) then 4 else 0
      case _ => 0;
    var matched := if t == FirstToLastFrame && fileCount == 2 then 2 else 0;
    var c := 5 + bonus + matched;
    if c > 10 then 10 else c
  }

  /** A batch request with one of the confidence batch markers scores the maximum. */
  lemma BatchMarkerFullConfidence(message: string)
    requires ContainsAny(Lower(message), ConfidenceBatchKeywords)
    ensures Classify(message, 1) == BatchImageGeneration
    ensures ConfidenceTenths(message, 1, BatchImageGeneration) == 10
  {
    var k :| 0 <= k < |ConfidenceBatchKeywords| && Contains(Lower(message), ConfidenceBatchKeywords[k]);
    LowerIdempotent(message);
    assert BatchKeywords[k] == ConfidenceBatchKeywords[k];
  }

  /** "生成四" makes a batch request but is not a confidence marker: the
      score is only the attachment bonus. */
  lemma GenerateFourScoresSeven()
    ensures Classify("生成四", 1) == BatchImageGeneration
    ensures ConfidenceTenths("生成四", 1, BatchImageGeneration) == 7
  {
    var m := "生成四";
    LowerNoUpper(m);
    ContainsAt(m, "生成四", 0);
    assert BatchKeywords[9] == "生成四";
    NoFirstCharNoneContained(m, SceneKeywords);
    forall k | 0 <= k < |ConfidenceBatchKeywords| ensures !Contains(m, ConfidenceBatchKeywords[k]) {
      if k < 2 {
        AbsentChar(m, ConfidenceBatchKeywords[k], 1);
      } else {
        AbsentChar(m, ConfidenceBatchKeywords[k], 0);
      }
    }
  }

  /** The image keywords are matched case-insensitively by the classifier but
      case-sensitively by the score. */
  lemma ConfidenceIsCaseSensitive()
    ensures Classify("PHOTO", 0) == TextToImage && Classify("photo", 0) == TextToImage
    ensures ConfidenceTenths("PHOTO", 0, TextToImage) == 5
    ensures ConfidenceTenths("photo", 0, TextToImage) == 8
  {
    assert Lower("PHOTO") == "photo";
    LowerNoUpper("photo");
    NoFirstCharNoneContained("photo", VideoKeywords);
    NoFirstCharNoneContained("PHOTO", ImageGenKeywords);
    ContainsAt("photo", "photo", 0);
    assert ImageGenKeywords[8] == "photo";
  }

  // ---------------------------------------------------------------------------
  // Reasoning
  // ---------------------------------------------------------------------------

  /** One reason of the explanation. */
  datatype Reason =
    | Files(count: int)
    | BatchKeywordFound
    | BatchNeedsScenes
    | VideoWords
    | ImageWords
    | InterpolationWords
  {
    function Text(): string
    {
      match this
      case Files(count) => if count == 0 then "未上傳文件" else "上傳了 " + IntToString(count) + " 個文件"
      case BatchKeywordFound => "包含批量生成關鍵詞（四張/四個/場景等）"
      case BatchNeedsScenes => "需要參考圖片生成多個不同場景"
      case VideoWords => "消息中包含視頻相關詞彙"
      case ImageWords => "消息中包含圖片相關詞彙"
      case InterpolationWords => "消息中包含插值相關詞彙"
    }
  }

  /** The reason `r` when `found`, else nothing. */
  function If(found: bool, rs: seq<Reason>): seq<Reason>
  {
    if found then rs else []
  }

  predicate MentionsVideo(message: string) { Contains(message, "視頻") || Contains(Lower(message), "video") }
  predicate MentionsImage(message: string) { Contains(message, "圖片") || Contains(Lower(message), "image") }
  predicate MentionsInterpolation(message: string) { Contains(message, "首尾") || Contains(message, "插值") }

  /** The reasons `_generate_reasoning` collects, in order: the attachments
      always, then one per kind of evidence found. */
  function Reasons(t: TaskType, message: string, fileCount: int): (rs: seq<Reason>)
    ensures 1 <= |rs| <= 6 && rs[0] == Files(fileCount)
    ensures BatchNeedsScenes in rs <==> t == BatchImageGeneration
    ensures VideoWords in rs <==> MentionsVideo(message)
    ensures ImageWords in rs <==> MentionsImage(message)
    ensures InterpolationWords in rs <==> MentionsInterpolation(message)
  {
    [Files(fileCount)]
    + If(t == BatchImageGeneration, [BatchKeywordFound, BatchNeedsScenes])
    + If(MentionsVideo(message), [VideoWords])
    + If(MentionsImage(message), [ImageWords])
    + If(MentionsInterpolation(message), [InterpolationWords])
  }

  /** The texts of the reasons, in order. */
  function ReasonTexts(rs: seq<Reason>): (texts: seq<string>)
    ensures |texts| == |rs|
    ensures forall k :: 0 <= k < |rs| ==> texts[k] == rs[k].Text()
  {
    seq(|rs|, k requires 0 <= k < |rs| => rs[k].Text())
  }

  const ReasoningLead := "判斷為 "
  const ReasoningBecause := "，因為: "

  /** The explanation built from a task type and its reasons. */
  function Explanation(t: TaskType, rs: seq<Reason>): string
  {
    ReasoningLead + t.Value() + ReasoningBecause + JoinWith("、", ReasonTexts(rs))
  }

  /** `_generate_reasoning`: the reasons, appended one after another, joined by 、. */
  method GenerateReasoning(t: TaskType, message: string, fileCount: int) returns (reasoning: string)
    ensures reasoning == Explanation(t, Reasons(t, message, fileCount))
  {
    var reasons: seq<Reason> := [Files(fileCount)];
    if t == BatchImageGeneration {
      reasons := reasons + [BatchKeywordFound];
      reasons := reasons + [BatchNeedsScenes];
    }
    ghost var expected := [Files(fileCount)] + If(t == BatchImageGeneration, [BatchKeywordFound, BatchNeedsScenes]);
    assert reasons == expected;
    if MentionsVideo(message) {
      reasons := reasons + [VideoWords];
    }
    expected := expected + If(MentionsVideo(message), [VideoWords]);
    assert reasons == expected;
    if MentionsImage(message) {
      reasons := reasons + [ImageWords];
    }
    expected := expected + If(MentionsImage(message), [ImageWords]);
    assert reasons == expected;
    if MentionsInterpolation(message) {
      reasons := reasons + [InterpolationWords];
    }
    expected := expected + If(MentionsInterpolation(message), [InterpolationWords]);
    assert reasons == expected;
    reasoning := Explanation(t, reasons);
  }

  /** A text built as lead, value, a connective and a list starting with
      `first` has the value right after the lead and contains `first`. */
  lemma LeadValueList(lead: string, v: string, because: string, list: string, first: string)
    requires |first| <= |list| && list[..|first|] == first
    ensures StartsAt(lead + v + because + list, |lead|, v)
    ensures Contains(lead + v + because + list, first)
  {
    var s := lead + v + because + list;
    assert s[|lead|..|lead| + |v|] == v;
    var h := |lead + v + because|;
    assert s[h..h + |first|] == list[..|first|];
    ContainsAt(s, first, h);
  }

  /** An explanation names its task type after the lead and quotes its
      first reason. */
  lemma ExplanationShape(t: TaskType, rs: seq<Reason>)
    requires |rs| > 0
    ensures StartsAt(Explanation(t, rs), |ReasoningLead|, t.Value())
    ensures Contains(Explanation(t, rs), rs[0].Text())
  {
    var texts := ReasonTexts(rs);
    LeadValueList(ReasoningLead, t.Value(), ReasoningBecause, JoinWith("、", texts), texts[0]);
  }

  /** The explanation names the task type and then the attachments. */
  lemma ExplanationNamesTypeAndFiles(t: TaskType, message: string, fileCount: int)
    ensures StartsAt(Explanation(t, Reasons(t, message, fileCount)), |ReasoningLead|, t.Value())
    ensures Contains(Explanation(t, Reasons(t, message, fileCount)), Files(fileCount).Text())
  {
    ExplanationShape(t, Reasons(t, message, fileCount));
  }

  /** A request without attachments is explained as such. */
  lemma NoFileExplanation(t: TaskType, message: string)
    ensures Contains(Explanation(t, Reasons(t, message, 0)), "未上傳文件")
  {
    ExplanationNamesTypeAndFiles(t, message, 0);
  }

  // ---------------------------------------------------------------------------
  // The whole analysis
  // ---------------------------------------------------------------------------

  datatype Analysis = Analysis(
    taskType: TaskType,
    prompt: string,
    fileCount: int,
    reasoning: string,
    parameters: Params,
    confidence: int)

  /** `analyze_intent`: classification of the lowered message; the prompt,
      the reasoning, the parameters and the score from the message as given. */
  method AnalyzeIntent(message: string, fileCount: int) returns (a: Analysis)
    ensures a.taskType == Classify(message, fileCount) && a.fileCount == fileCount
    ensures a.prompt == Normalize(RemoveWords(message, InstructionWords))
    ensures a.reasoning == Explanation(a.taskType, Reasons(a.taskType, message, fileCount))
    ensures a.parameters.duration == Patterns.DurationOf(message)
    ensures a.parameters.size == Patterns.SizeOf(message) && a.parameters.style == StyleOf(message)
    ensures a.confidence == ConfidenceTenths(message, fileCount, a.taskType)
    ensures a.taskType != Multimodal && 5 <= a.confidence <= 10
  {
    var t := Classify(message, fileCount);
    var prompt := ExtractPrompt(message);
    var reasoning := GenerateReasoning(t, message, fileCount);
    var parameters := ExtractParameters(message);
    a := Analysis(t, prompt, fileCount, reasoning, parameters, ConfidenceTenths(message, fileCount, t));
  }

  // ---------------------------------------------------------------------------
  // Action descriptions
  // ---------------------------------------------------------------------------

  const UnknownTaskDescription := "執行未知任務"

  const Descriptions: map<string, string> := map[
    "text_to_image" := "根據文字描述生成圖片",
    "image_to_image" := "轉換/編輯上傳的圖片",
    "image_to_video" := "將圖片轉換為動態視頻",
    "text_to_video" := "根據文字描述生成視頻",
    "first_to_last_frame" := "使用首尾兩幀生成完整視頻（插值）",
    "batch_image_generation" := "參考圖片批量生成多張場景圖片"
  ]

  /** `_get_action_description`: the table entry, or the unknown-task text. */
  function ActionDescription(taskType: string): (d: string)
    ensures d == UnknownTaskDescription <==> taskType !in Descriptions
    ensures taskType in Descriptions ==> d == Descriptions[taskType]
  {
    if taskType in Descriptions then Descriptions[taskType] else UnknownTaskDescription
  }

  /** Every task type but the multimodal one has its own description. */
  lemma DescribedTaskTypes(t: TaskType, u: TaskType)
    ensures t.Value() in Descriptions <==> t != Multimodal
    ensures t != Multimodal && u != Multimodal && t != u
      ==> ActionDescription(t.Value()) != ActionDescription(u.Value())
  {
  }

  // ---------------------------------------------------------------------------
  // Execution planning
  // ---------------------------------------------------------------------------

  /** The batch fields of a step's parameters. */
  datatype BatchInfo = BatchInfo(index: nat, total: nat)

  /** One execution step; `parameters` are the extracted ones a non-batch
      step carries, `batch` what a batch step carries instead. */
  datatype Step = Step(
    step: nat,
    action: string,
    prompt: string,
    filePaths: seq<string>,
    parameters: Option<Params>,
    batch: Option<BatchInfo>,
    description: string)

  /** The intent handed to the planner. */
  datatype Intent = Intent(taskType: string, prompt: string, filePaths: seq<string>, parameters: Option<Params>)

  const BatchTaskType := "batch_image_generation"
  const ImageToImageAction := "image_to_image"

  /** The description of the scene at 1-based position `i`: its first 50 characters. */
  function BatchDescription(i: nat, scene: string): string
  {
    "生成第" + NatToString(i) + "張場景圖：" + Take(scene, 50) + "..."
  }

  /** The step for the scene at 0-based position `i` of `scenes`. */
  function BatchStep(scenes: seq<string>, filePaths: seq<string>, i: nat): Step
    requires i < |scenes|
  {
    Step(i + 1, ImageToImageAction, scenes[i], filePaths, None, Some(BatchInfo(i + 1, |scenes|)),
         BatchDescription(i + 1, scenes[i]))
  }

  /** `_plan_batch_generation` after the scenes are parsed: one image-to-image
      step per scene, numbered from 1, all with the same attachments. */
  method PlanBatchSteps(scenes: seq<string>, filePaths: seq<string>) returns (plan: seq<Step>)
    ensures |plan| == |scenes|
    ensures forall i :: 0 <= i < |plan| ==> plan[i] == BatchStep(scenes, filePaths, i)
  {
    plan := [];
    for i := 0 to |scenes|
      invariant |plan| == i
      invariant forall j :: 0 <= j < i ==> plan[j] == BatchStep(scenes, filePaths, j)
    {
      plan := plan + [Step(i + 1, ImageToImageAction, scenes[i], filePaths, None,
                           Some(BatchInfo(i + 1, |scenes|)), BatchDescription(i + 1, scenes[i]))];
    }
  }

  /** `plan_execution`: a batch intent becomes one step per parsed scene
      (none when no scene is found); any other intent one step described by
      the table. The scene parser raises where `_parse_scenes` does. */
  method PlanExecution(intent: Intent, reading: Scenes.Reading) returns (r: Result<seq<Step>, Scenes.SceneError>)
    ensures intent.taskType != BatchTaskType ==>
      r == Ok([Step(1, intent.taskType, intent.prompt, intent.filePaths, intent.parameters, None,
                    ActionDescription(intent.taskType))])
    ensures intent.taskType == BatchTaskType ==> (r.Ok? <==> Scenes.ScenesOf(intent.prompt, reading).Ok?)
    ensures intent.taskType == BatchTaskType && r.Ok? ==>
      var scenes := Scenes.ScenesOf(intent.prompt, reading).value;
      && |r.value| == |scenes| <= 4
      && forall i :: 0 <= i < |r.value| ==> r.value[i] == BatchStep(scenes, intent.filePaths, i)
    ensures reading == Scenes.Intended ==> r.Ok?
  {
    if intent.taskType == BatchTaskType {
      var scenes := Scenes.ParseScenes(intent.prompt, reading);
      if scenes.Err? {
        return Err(scenes.error);
      }
      var plan := PlanBatchSteps(scenes.value, intent.filePaths);
      return Ok(plan);
    }
    r := Ok([Step(1, intent.taskType, intent.prompt, intent.filePaths, intent.parameters, None,
                  ActionDescription(intent.taskType))]);
  }

  // ---------------------------------------------------------------------------
  // Validation
  // ---------------------------------------------------------------------------

  const BatchNeedsReference := "批量圖生圖需要上傳1張參考圖片"
  const BatchNeedsDetail := "請提供詳細的場景描述（至少10個字符）"
  const BatchNeedsLabels := "請用\"場景一\"、\"場景二\"等格式描述各個場景"
  const TextToImageNeedsDescription := "請提供有效的圖片描述（至少3個字符）"
  const ImageToImageNeedsImage := "圖生圖需要上傳至少1張圖片"
  const ImageToImageNeedsInstruction := "請說明要如何處理圖片"
  const ImageToVideoNeedsImage := "圖生視頻需要上傳1張圖片"
  const InterpolationNeedsTwoImages := "首尾幀插值需要上傳2張圖片"
  const TextToVideoNeedsDescription := "請提供有效的視頻描述（至少5個字符）"

  /** `not message or len(message.strip()) < n`. */
  predicate TooShort(message: string, n: nat)
  {
    message == "" || |Strip(message)| < n
  }

  /** The empty message is the only one whose emptiness test matters, and it
      is already too short: the test is the length of the stripped text alone. */
  lemma TooShortIsStrippedLength(message: string, n: nat)
    requires n > 0
    ensures TooShort(message, n) <==> |Strip(message)| < n
  {
    if message == "" {
      var i: nat :| StartsAt(message, i, Strip(message));
      assert |Strip(message)| == 0;
    }
  }

  /** The failed rules of a batch request, in rule order. */
  function BatchErrors(message: string, fileCount: int): seq<string>
  {
    (if fileCount == 0 then [BatchNeedsReference] else [])
    + (if TooShort(message, 10) then [BatchNeedsDetail] else [])
    + (if !ContainsAny(message, SceneKeywords) then [BatchNeedsLabels] else [])
  }

  function ImageToImageErrors(message: string, fileCount: int): seq<string>
  {
    (if fileCount == 0 then [ImageToImageNeedsImage] else [])
    + (if message == "" then [ImageToImageNeedsInstruction] else [])
  }

  /** The failed rules of a task type, each with its message, in rule order. */
  function ValidationErrors(taskType: string, message: string, fileCount: int): (errors: seq<string>)
    ensures |errors| <= 3
  {
    if taskType == "batch_image_generation" then BatchErrors(message, fileCount)
    else if taskType == "text_to_image" then
      if TooShort(message, 3) then [TextToImageNeedsDescription] else []
    else if taskType == "image_to_image" then ImageToImageErrors(message, fileCount)
    else if taskType == "image_to_video" then
      if fileCount == 0 then [ImageToVideoNeedsImage] else []
    else if taskType == "first_to_last_frame" then
      if fileCount < 2 then [InterpolationNeedsTwoImages] else []
    else if taskType == "text_to_video" then
      if TooShort(message, 5) then [TextToVideoNeedsDescription] else []
    else []
  }

  datatype Validation = Validation(valid: bool, errors: seq<string>)

  /** `validate_input`: every rule of the task type is checked and each
      failure appends its message; the input is valid when none failed. */
  method ValidateInput(taskType: string, message: string, fileCount: int) returns (v: Validation)
    ensures v.errors == ValidationErrors(taskType, message, fileCount)
    ensures v.valid <==> v.errors == []
  {
    var errors: seq<string> := [];
    if taskType == "batch_image_generation" {
      if fileCount == 0 {
        errors := errors + [BatchNeedsReference];
      }
      if message == "" || |Strip(message)| < 10 {
        errors := errors + [BatchNeedsDetail];
      }
      if !ContainsAny(message, SceneKeywords) {
        errors := errors + [BatchNeedsLabels];
      }
      assert errors == BatchErrors(message, fileCount);
    } else if taskType == "text_to_image" {
      if message == "" || |Strip(message)| < 3 {
        errors := errors + [TextToImageNeedsDescription];
      }
    } else if taskType == "image_to_image" {
      if fileCount == 0 {
        errors := errors + [ImageToImageNeedsImage];
      }
      if message == "" {
        errors := errors + [ImageToImageNeedsInstruction];
      }
      assert errors == ImageToImageErrors(message, fileCount);
    } else if taskType == "image_to_video" {
      if fileCount == 0 {
        errors := errors + [ImageToVideoNeedsImage];
      }
    } else if taskType == "first_to_last_frame" {
      if fileCount < 2 {
        errors := errors + [InterpolationNeedsTwoImages];
      }
    } else if taskType == "text_to_video" {
      if message == "" || |Strip(message)| < 5 {
        errors := errors + [TextToVideoNeedsDescription];
      }
    }
    v := Validation(|errors| == 0, errors);
  }

  /** A batch request is valid exactly when it has an attachment, at least
      ten characters after stripping and a scene label. */
  lemma BatchValidIff(message: string, fileCount: int)
    ensures ValidationErrors(BatchTaskType, message, fileCount) == []
        <==> fileCount != 0 && |Strip(message)| >= 10 && ContainsAny(message, SceneKeywords)
  {
    TooShortIsStrippedLength(message, 10);
  }

  /** A task type without a description, such as the multimodal one, has no
      rules and is always valid. */
  lemma UndescribedTypesAreValid(taskType: string, message: string, fileCount: int)
    requires taskType !in Descriptions
    ensures ValidationErrors(taskType, message, fileCount) == []
  {
  }

  /** The empty batch request fails all three rules. */
  lemma EmptyBatchThreeErrors()
    ensures ValidationErrors(BatchTaskType, "", 0) == [BatchNeedsReference, BatchNeedsDetail, BatchNeedsLabels]
  {
    NoFirstCharNoneContained("", SceneKeywords);
  }

  /** What the classifier calls a batch request never lacks its reference image. */
  lemma ClassifiedBatchHasReference(message: string, fileCount: int)
    requires Classify(message, fileCount) == BatchImageGeneration
    ensures BatchNeedsReference !in ValidationErrors(BatchTaskType, message, fileCount)
  {
  }
}
