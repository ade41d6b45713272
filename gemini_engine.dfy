/** The bookkeeping around the chat model in core/gemini_engine.py: the keyword
    task detector, the length-based confidence, and the conversation history
    the engine keeps and sends back with every request. The request itself is
    not modelled; `Chat` takes the model's reply text as a parameter. */
module Gemini {
  import opened Text
  import opened Wrappers

  // ---------------------------------------------------------------------------
  // Task detection
  // ---------------------------------------------------------------------------

  /** The task kinds the detector names. */
  datatype EngineTask = TextGen | ImageGen | VideoGen | Speech2Video | Multimodal
  {
    function Value(): string
    {
      match this
      case TextGen => "text_gen"
      case ImageGen => "image_gen"
      case VideoGen => "video_gen"
      case Speech2Video => "speech2video"
      case Multimodal => "multimodal"
    }
  }

  const ImageWords: seq<string> := ["画", "生成图片", "image", "图", "图片", "插图"]
  const VideoWords: seq<string> := ["视频", "短片", "动画", "video", "影片"]
  const SpeechWords: seq<string> := ["语音", "声音", "speech", "audio", "配音"]
  /** The words that would turn a video request into `video_gen`. */
  const VideoImageWords: seq<string> := ["图片", "image", "图"]
  const WholeWords: seq<string> := ["完整", "全套", "整体", "流程"]

  /** `_detect_task_type`: keyword tests on the lowered user input, in order.
      The reply is lowered too by the source but never consulted. */
  function DetectTaskType(userInput: string, response: string): (r: EngineTask)
    ensures r == ImageGen <==> ContainsAny(Lower(userInput), ImageWords)
    ensures r == Speech2Video <==>
      !ContainsAny(Lower(userInput), ImageWords)
      && ContainsAny(Lower(userInput), VideoWords) && ContainsAny(Lower(userInput), SpeechWords)
  {
    var lowered := Lower(userInput);
    if ContainsAny(lowered, ImageWords) then ImageGen
    else if ContainsAny(lowered, VideoWords) && ContainsAny(lowered, SpeechWords) then Speech2Video
    else if ContainsAny(lowered, VideoWords) && ContainsAny(lowered, VideoImageWords) then VideoGen
    else if ContainsAny(lowered, WholeWords) then Multimodal
    else TextGen
  }

  /** Every word that would select `video_gen` is also an image word. */
  lemma VideoImageWordsAreImageWords(s: string)
    requires ContainsAny(s, VideoImageWords)
    ensures ContainsAny(s, ImageWords)
  {
    var k :| 0 <= k < |VideoImageWords| && Contains(s, VideoImageWords[k]);
    var j := if k == 0 then 4 else if k == 1 then 2 else 3;
    assert ImageWords[j] == VideoImageWords[k];
  }

  /** `video_gen` is never returned: the image test runs first and catches
      every input the `video_gen` branch would accept. */
  lemma VideoGenUnreachable(userInput: string, response: string)
    ensures DetectTaskType(userInput, response) != VideoGen
  {
    var lowered := Lower(userInput);
    if ContainsAny(lowered, VideoImageWords) {
      VideoImageWordsAreImageWords(lowered);
    }
  }

  /** Without image, video-plus-speech or video-plus-image words, the
      multimodal words decide between `multimodal` and `text_gen`. */
  lemma DetectFallsThrough(userInput: string, response: string)
    requires !ContainsAny(Lower(userInput), ImageWords)
    requires !(ContainsAny(Lower(userInput), VideoWords) && ContainsAny(Lower(userInput), SpeechWords))
    ensures DetectTaskType(userInput, response) == (if ContainsAny(Lower(userInput), WholeWords) then Multimodal else TextGen)
  {
    VideoGenUnreachable(userInput, response);
  }

  /** A video with a voice-over is `speech2video`. */
  lemma DubbedVideo()
    ensures DetectTaskType("配音视频", "") == Speech2Video
  {
    var lowered := Lower("配音视频");
    assert lowered == "配音视频";
    assert StartsAt(lowered, 2, VideoWords[0]);
    assert StartsAt(lowered, 0, SpeechWords[4]);
    forall k | 0 <= k < |ImageWords|
      ensures !Contains(lowered, ImageWords[k])
    {
      AbsentChar(lowered, ImageWords[k], 0);
    }
  }

  /** A video made from a picture is classified as an image request. */
  lemma PictureVideoIsImage()
    ensures DetectTaskType("图片视频", "") == ImageGen
  {
    var lowered := Lower("图片视频");
    assert lowered == "图片视频";
    assert StartsAt(lowered, 0, ImageWords[4]);
  }

  // ---------------------------------------------------------------------------
  // Confidence
  // ---------------------------------------------------------------------------

  /** `_calculate_confidence` on the reply text, with exact real arithmetic. */
  function ResponseConfidence(text: string): (r: real)
    ensures 0.3 <= r <= 0.9
    ensures |text| < 10 ==> r == 0.3
    ensures |text| > 100 ==> r == 0.9
  {
    if |text| < 10 then 0.3
    else if |text| > 100 then 0.9
    else 0.5 + (|text| as real / 100.0) * 0.4
  }

  /** A longer reply is never less confident. */
  lemma ConfidenceMonotone(shorter: string, longer: string)
    requires |shorter| <= |longer|
    ensures ResponseConfidence(shorter) <= ResponseConfidence(longer)
  {
  }

  // ---------------------------------------------------------------------------
  // Conversation history
  // ---------------------------------------------------------------------------

  datatype Role = User | Model
  {
    function Value(): string
    {
      match this
      case User => "user"
      case Model => "model"
    }
  }

  /** One history entry, and one content item of a request. */
  datatype Turn = Turn(role: Role, parts: string)

  /** The model's scripted reply to the system prompt. */
  const Acknowledgement := "理解，我会协助您完成各种创作任务。"

  /** How many history entries a request carries. */
  const Recent: nat := 10

  /** A non-empty system prompt opens the request with itself and the
      scripted acknowledgement. */
  function Preamble(systemPrompt: Option<string>): (r: seq<Turn>)
    ensures |r| == 0 || |r| == 2
    ensures |r| == 2 <==> systemPrompt.Some? && systemPrompt.value != ""
  {
    if systemPrompt.Some? && systemPrompt.value != "" then
      [Turn(User, systemPrompt.value), Turn(Model, Acknowledgement)]
    else []
  }

  /** Entries alternate user, model, user, model, ... and come in pairs. */
  ghost predicate Alternating(h: seq<Turn>)
  {
    |h| % 2 == 0 && forall i :: 0 <= i < |h| ==> h[i].role == (if i % 2 == 0 then User else Model)
  }

  /** Dropping an even number of entries keeps a history alternating. */
  lemma AlternatingSuffix(h: seq<Turn>, start: nat)
    requires Alternating(h) && start <= |h| && start % 2 == 0
    ensures Alternating(h[start..])
  {
    var r := h[start..];
    forall i | 0 <= i < |r|
      ensures r[i].role == (if i % 2 == 0 then User else Model)
    {
      assert r[i] == h[start + i];
      assert (start + i) % 2 == i % 2;
    }
  }

  /** The last ten entries of an alternating history still start with the user. */
  lemma RecentAlternate(h: seq<Turn>)
    requires Alternating(h)
    ensures Alternating(SliceFrom(h, -(Recent as int)))
  {
    var start := if Recent < |h| then |h| - Recent else 0;
    AlternatingSuffix(h, start);
  }

  /** The request `chat` sends: the preamble, the last ten history entries and
      the new input. */
  ghost function Request(systemPrompt: Option<string>, h: seq<Turn>, userInput: string): seq<Turn>
  {
    Preamble(systemPrompt) + SliceFrom(h, -(Recent as int)) + [Turn(User, userInput)]
  }

  /** Without a system prompt the request alternates and ends with the new input. */
  lemma RequestAlternates(h: seq<Turn>, userInput: string)
    requires Alternating(h)
    ensures var req := Request(None, h, userInput);
      |req| <= Recent + 1 && req[|req| - 1] == Turn(User, userInput)
      && forall i :: 0 <= i < |req| ==> req[i].role == (if i % 2 == 0 then User else Model)
  {
    RecentAlternate(h);
    var recent := SliceFrom(h, -(Recent as int));
    var req := Request(None, h, userInput);
    assert req == recent + [Turn(User, userInput)];
    forall i | 0 <= i < |req|
      ensures req[i].role == (if i % 2 == 0 then User else Model)
    {
      if i < |recent| {
        assert req[i] == recent[i];
      }
    }
  }

  /** Recording an input and its reply keeps the history alternating. */
  lemma AlternatingAppend(h: seq<Turn>, userInput: string, responseText: string)
    requires Alternating(h)
    ensures Alternating(h + [Turn(User, userInput), Turn(Model, responseText)])
  {
    var h' := h + [Turn(User, userInput), Turn(Model, responseText)];
    forall i | 0 <= i < |h'|
      ensures h'[i].role == (if i % 2 == 0 then User else Model)
    {
      if i < |h| {
        assert h'[i] == h[i];
      } else if i == |h| {
        assert h'[i] == Turn(User, userInput);
      } else {
        assert h'[i] == Turn(Model, responseText);
      }
    }
  }

  /** What a successful `chat` returns besides the request it sent. */
  datatype ChatReply = ChatReply(response: string, taskType: EngineTask, confidence: real)

  datatype HistoryError = IndexError

  const NoHistory := "没有对话历史"

  /** `get_history_summary`: the number of entries and the first 50
      characters of the second-to-last entry. A history of one entry has no
      second-to-last one. */
  function SummaryOf(h: seq<Turn>): (r: Result<string, HistoryError>)
    ensures h == [] ==> r == Ok(NoHistory)
    ensures r.Err? <==> |h| == 1
  {
    if |h| == 0 then Ok(NoHistory)
    else if |h| < 2 then Err(IndexError)
    else Ok("共 " + NatToString(|h|) + " 轮对话\n" + "最后一轮: " + Take(h[|h| - 2].parts, 50) + "...")
  }

  /** After a chat, the summary quotes the start of that chat's input and
      counts the entries, two per chat. */
  lemma SummaryAfterChat(h: seq<Turn>, userInput: string, responseText: string)
    ensures SummaryOf(h + [Turn(User, userInput), Turn(Model, responseText)])
      == Ok("共 " + NatToString(|h| + 2) + " 轮对话\n" + "最后一轮: " + Take(userInput, 50) + "...")
  {
    var h' := h + [Turn(User, userInput), Turn(Model, responseText)];
    assert h'[|h'| - 2] == Turn(User, userInput);
  }

  /** An alternating history never hits the missing-entry error. */
  lemma AlternatingSummaryOk(h: seq<Turn>)
    requires Alternating(h)
    ensures SummaryOf(h).Ok?
  {
  }

  class Engine {
    var history: seq<Turn>

    ghost predicate Valid()
      reads this
    {
      Alternating(history)
    }

    /** A fresh engine has no history. */
    constructor ()
      ensures Valid() && history == []
    {
      history := [];
    }

    /** `chat`: build the request, and on a reply record the input and the
        reply in the history. */
    method Chat(userInput: string, systemPrompt: Option<string>, responseText: string)
      returns (contents: seq<Turn>, reply: ChatReply)
      requires Valid()
      modifies this
      ensures Valid()
      ensures contents == Request(systemPrompt, old(history), userInput)
      ensures history == old(history) + [Turn(User, userInput), Turn(Model, responseText)]
      ensures reply == ChatReply(responseText, DetectTaskType(userInput, responseText), ResponseConfidence(responseText))
    {
      var preamble := Preamble(systemPrompt);
      var recent := SliceFrom(history, -(Recent as int));
      contents := preamble;
      for i := 0 to |recent|
        invariant contents == preamble + recent[..i]
      {
        assert recent[..i + 1] == recent[..i] + [recent[i]];
        contents := contents + [recent[i]];
      }
      assert recent[..|recent|] == recent;
      contents := contents + [Turn(User, userInput)];
      AlternatingAppend(history, userInput, responseText);
      history := history + [Turn(User, userInput), Turn(Model, responseText)];
      reply := ChatReply(responseText, DetectTaskType(userInput, responseText), ResponseConfidence(responseText));
    }

    /** `clear_history`. */
    method ClearHistory()
      modifies this
      ensures Valid() && history == []
    {
      history := [];
    }

    /** `get_history_summary`. */
    method HistorySummary() returns (r: Result<string, HistoryError>)
      ensures r == SummaryOf(history)
    {
      if |history| == 0 {
        return Ok(NoHistory);
      }
      if |history| < 2 {
        return Err(IndexError);
      }
      r := Ok("共 " + NatToString(|history|) + " 轮对话\n" + "最后一轮: " + Take(history[|history| - 2].parts, 50) + "...");
    }
  }
}
