# Video_Chatllm core, modelled in Dafny

Video_Chatllm is a Flask web application. It turns a chat message and some
uploaded pictures into image and video generation jobs. This project models
the logic that decides what to do with a message, in Dafny 4.11:

- **The decision agent** (`core/decision_agent.py`, modules `DecisionAgent`,
  `Patterns`, `Scenes`):
  - the ordered keyword table that picks one of the seven task types;
  - the prompt clean-up, and the duration, size and style the agent reads
    out of a message;
  - the confidence score (in tenths) and the reasoning sentence;
  - the scene parser, the execution planner and the input validator.
- **The error handler** (`core/error_handler.py`, module `ErrorHandling`):
  - error classification and the retry table;
  - the error history a class keeps, the rollback over a task history, and
    the statistics over the error history.
- **The memory manager** (`core/memory_manager.py`, module `Memory`): a class
  whose maps hold conversation sessions (at most 100 turns each), task
  records and user preferences.
- **The chat engine** (`core/gemini_engine.py`, module `Gemini`):
  - the keyword task detector and the length-based confidence;
  - the alternating user/model history, the request built from it, and the
    history summary.
- **The route rules of `app.py`** (module `App`): the fallback intent
  classifier, the video-mode choice, the download MIME type and the checks
  `execute_task` makes before dispatching.

`Text` holds the Python string operations the code relies on, written out:
- `lower()` and substring tests;
- `replace`, `split`, `join` and `strip`;
- negative slicing;
- `int()` and `str()` on decimal numbers.

`Wrappers` holds `Option` and `Result`.

Exceptions the source raises become `Err` values. Examples are the
`IndexError` of the scene parser and the `KeyError` of rollback. Clocks and
model replies become parameters.

## Model

| member | source | states |
|---|---|---|
| Text.LowerIdempotent | core/decision_agent.py:52-56 | lowering an already lowered message changes nothing (the classifier lowers a message that `analyze_intent` lowered already) |
| Text.ContainsLowerIff | core/decision_agent.py:88 | a keyword without ASCII letters occurs in the lowered message exactly when it occurs in the message |
| Text.ContainsAnyLowerIff | core/decision_agent.py:88 | the same for a list of such keywords |
| Text.RemoveAll | core/decision_agent.py:155 | `str.replace(w, '')` never lengthens the text, and shortens it by at least `len(w)` when `w` occurs |
| Text.RemoveAllAbsent | core/decision_agent.py:155 | replacing a word that does not occur leaves the text unchanged |
| Text.Strip | core/decision_agent.py:160 | `strip()` gives a text with no whitespace at either end, never longer than the original |
| Text.StripIsSlice | core/decision_agent.py:160 | the stripped text is the original with only whitespace cut from its two ends |
| Text.StripStripped | core/decision_agent.py:160 | stripping a stripped text changes nothing |
| Text.JoinWordsTidy | core/decision_agent.py:158 | `' '.join` of whitespace-free words has single spaces only between words and none at the ends |
| Text.NormalizeTidy | core/decision_agent.py:158 | `' '.join(s.split())` is always tidy in that sense |
| Text.TidyIsStripped | core/decision_agent.py:158-160 | a tidy text is already stripped, so the final `strip()` changes nothing |
| Text.WordsOfJoin | core/decision_agent.py:158 | splitting words joined by single spaces gives back the words |
| Text.NormalizeIdempotent | core/decision_agent.py:158 | normalising whitespace twice is normalising once |
| Text.SplitOnJoin | core/decision_agent.py:343 | the pieces of `split('\n')` hold no newline and join back to the prompt |
| Text.Take | core/decision_agent.py:314 | `s[:n]` has length min(n, len) and is a prefix |
| Text.SliceFrom | core/memory_manager.py:93 | `xs[start:]` for a negative or non-negative start, clamped as Python clamps it |
| Text.NatToString | core/decision_agent.py:185 | `str(n)` is a non-empty run of digits without a leading zero unless `n` is 0 |
| Text.DigitsValueOfNatToString | core/decision_agent.py:184-185 | `int(str(n)) == n` |
| Text.IntToString | core/decision_agent.py:210 | `str(i)` of a negative count starts with `-`, of a non-negative one reads back as `i` |
| Patterns.NoDigitNoDuration | core/decision_agent.py:167 | a message with no digit has no duration match |
| Patterns.DurationOf | core/decision_agent.py:166-172 | the duration always lies in 1..10, and is 5 when nothing matches |
| Patterns.SevenSeconds | core/decision_agent.py:167-170 | "7秒" in a message gives duration 7 |
| Patterns.NoDurationMentioned | core/decision_agent.py:171-172 | a message without a duration gets the default 5 |
| Patterns.SizeIsFormatted | core/decision_agent.py:181-186 | a size found by the pattern loop is always `"{w}x{h}"` for some numbers |
| Patterns.FirstSizeIsFirstMatch | core/decision_agent.py:181-186 | no size exactly when no pattern matches; otherwise the size of the first pattern that matches anywhere, no earlier pattern matching |
| Patterns.SizeOfFormatted | core/decision_agent.py:176 | the first size pattern reads `"{w}x{h}"` back as `(w, h)` |
| Patterns.SizeOfIdempotent | core/decision_agent.py:175-186 | extracting the size from an extracted size gives it back |
| Patterns.NoDigitNoSize | core/decision_agent.py:182 | no size pattern matches a text without digits |
| Patterns.FullHdDecimals | core/decision_agent.py:184-185 | `int()`/`str()` of 1920 and 1080, and the size "1920x1080" |
| Patterns.RatioDecimals | core/decision_agent.py:184-185 | `int()`/`str()` of 16 and 9, and the size "16x9" |
| Patterns.FullHdMatch | core/decision_agent.py:176 | the `x` pattern reads "1920x1080" as (1920, 1080) |
| Patterns.FullHdSize | core/decision_agent.py:181-186 | "1920x1080 image" has size "1920x1080" |
| Patterns.RatioMissesFirstPattern | core/decision_agent.py:176 | "16:9 video" does not match the `x`/`×` pattern |
| Patterns.RatioMatchesSecondPattern | core/decision_agent.py:177 | the `:` pattern reads "16:9" as (16, 9) |
| Patterns.AspectRatioSize | core/decision_agent.py:181-186 | "16:9 video" has size "16x9": the second pattern is tried after the first fails |
| Scenes.HeaderEnd | core/decision_agent.py:325-328 | a scene label found at a position ends after the label and its colon, inside the text |
| Scenes.BodyEnd | core/decision_agent.py:325-328 | the lazy body ends at the first following label or at the end (or a final newline), and not before |
| Scenes.FindAll | core/decision_agent.py:332 | findall gives pairs exactly for the two-group patterns and single captures otherwise |
| Scenes.SceneText | core/decision_agent.py:335 | as written, `match[1]` of a single capture is one of its characters and raises on an empty capture; the intended reading is the whole capture |
| Scenes.CollectScenes | core/decision_agent.py:334-338 | every collected scene is stripped and non-empty, at most one per match; the intended reading never raises |
| Scenes.CollectErrStays | core/decision_agent.py:334-335 | once a match raises, the whole parse raises |
| Scenes.CapturesGiveOneCharacter | core/decision_agent.py:335 | as written, every scene taken from a single-group pattern is one character long |
| Scenes.PatternScenes | core/decision_agent.py:331-339 | scenes from the pattern loop are stripped and non-empty |
| Scenes.FirstPatternWins | core/decision_agent.py:331-339 | only the first pattern with any match is used |
| Scenes.NonBlank | core/decision_agent.py:343 | the kept paragraphs are stripped and non-empty, no more than the lines |
| Scenes.ChosenScenes | core/decision_agent.py:333-346 | the pattern scenes when there are any, else the paragraphs after the first; stripped and non-empty either way |
| Scenes.ScenesOf | core/decision_agent.py:319-348 | at most 4 stripped, non-empty scenes; the intended reading never raises |
| Scenes.ParagraphFallback | core/decision_agent.py:342-348 | with no label match, fewer than two paragraphs give no scene, otherwise all paragraphs after the first, at most 4 |
| Scenes.CollectMatches | core/decision_agent.py:334-338 | the loop over the matches computes `CollectScenes` |
| Scenes.ParseScenes | core/decision_agent.py:319-348 | the imperative parser computes `ScenesOf`, at most 4 scenes |
| Scenes.TwoScenesHeaders | core/decision_agent.py:325 | where the two labels of the sample prompt end |
| Scenes.TwoScenesBodies | core/decision_agent.py:325 | where the two bodies of the sample prompt end |
| Scenes.TwoScenesMatches | core/decision_agent.py:332 | findall on the sample prompt gives two captures, one per scene body |
| Scenes.TwoScenesBodyTexts | core/decision_agent.py:325 | the two captured bodies of the sample are "貓在跳舞\n" and "狗在跑步" |
| Scenes.OneCharStripped | core/decision_agent.py:336 | stripping "在" keeps it |
| Scenes.FirstBodyStripped | core/decision_agent.py:336 | stripping the first body drops its newline |
| Scenes.SecondBodyStripped | core/decision_agent.py:336 | stripping the second body keeps it |
| Scenes.CollectPair | core/decision_agent.py:334-338 | two matches with non-blank scenes give both stripped texts, in order |
| Scenes.TwoScenesCollectedAsWritten | core/decision_agent.py:334-338 | as written, the sample's two captures give ["在", "在"] |
| Scenes.TwoScenesCollectedIntended | core/decision_agent.py:334-338 | read as intended, the sample's two captures give the full stripped texts |
| Scenes.TwoScenesParsed | core/decision_agent.py:319-348 | `_parse_scenes("場景一：貓在跳舞\n場景二：狗在跑步")` gives ["在", "在"] as written and ["貓在跳舞", "狗在跑步"] as intended |
| Scenes.EmptySceneRaises | core/decision_agent.py:335 | as written, "場景一：" raises IndexError |
| DecisionAgent.ValueInjective | core/decision_agent.py:13-21 | distinct task types have distinct string values |
| DecisionAgent.DetermineTaskType | core/decision_agent.py:83-143 | never multimodal; batch only with one file; 0 files give text-to-video/image, 1 file batch/image-to-video/image-to-image, 2 files first-to-last/image-to-image, other counts image-to-image |
| DecisionAgent.OneFileBatchFirst | core/decision_agent.py:112-115 | with one file, batch exactly when a batch marker or scene label occurs, ahead of every other rule |
| DecisionAgent.OneFileTable | core/decision_agent.py:112-132 | with one file and no batch marker or scene label, image-to-video exactly when a video keyword occurs, else image-to-image |
| DecisionAgent.NoFileTable | core/decision_agent.py:117-122 | with no file, text-to-video exactly when a video keyword occurs, else text-to-image |
| DecisionAgent.TwoFileTable | core/decision_agent.py:134-139 | with two files, first-to-last exactly when an interpolation keyword, 首 or 尾 occurs |
| DecisionAgent.ClassifyIgnoresCase | core/decision_agent.py:52-56 | upper and lower case messages classify alike |
| DecisionAgent.DigitFourIsBatch | core/decision_agent.py:87-115 | any "4" in a message with one file makes it a batch request |
| DecisionAgent.SizeLooksLikeBatch | core/decision_agent.py:87-115 | "1024x1024" with one file is a batch request |
| DecisionAgent.DrawCatIsTextToImage | core/decision_agent.py:117-122 | "幫我畫一隻貓" without files is text-to-image |
| DecisionAgent.AnimatePictureIsImageToVideo | core/decision_agent.py:124-127 | "把這張圖轉成動畫" with one file is image-to-video |
| DecisionAgent.RemoveWords | core/decision_agent.py:153-155 | removing the instruction words never lengthens the message |
| DecisionAgent.RemoveWordsAbsent | core/decision_agent.py:153-155 | a message without instruction words is left unchanged |
| DecisionAgent.RemoveEach | core/decision_agent.py:153-155 | the replace loop computes the single-pass removal of each word in order |
| DecisionAgent.ExtractPrompt | core/decision_agent.py:145-160 | the loop computes the single-pass removal, normalised; the prompt is tidy and stripped |
| DecisionAgent.PlainMessagePrompt | core/decision_agent.py:145-160 | without instruction words the prompt is the message with whitespace normalised |
| DecisionAgent.RemovalIsSinglePass | core/decision_agent.py:154-155 | "幫幫我我" becomes "幫我": removal is one pass per word, not repeated |
| DecisionAgent.FirstStyle | core/decision_agent.py:196-199 | no style exactly when no group's keyword occurs; a style found belongs to a matching group before which no group matches |
| DecisionAgent.ExtractParameters | core/decision_agent.py:162-201 | duration in 1..10 and the extracted duration, size and style |
| DecisionAgent.RealisticFirst | core/decision_agent.py:189-199 | "realistic" anywhere selects the first group |
| DecisionAgent.ConfidenceTenths | core/decision_agent.py:229-263 | confidence lies in 0.5..1.0; image-to-image, text-to-video and multimodal always get 0.5; batch with one file at least 0.7 |
| DecisionAgent.BatchMarkerFullConfidence | core/decision_agent.py:234-263 | a batch marker with one file gives confidence 1.0 |
| DecisionAgent.GenerateFourScoresSeven | core/decision_agent.py:229-244 | "生成四" is a batch marker for the classifier but not for the score, which is 0.7 |
| DecisionAgent.ConfidenceIsCaseSensitive | core/decision_agent.py:247-249 | "PHOTO" and "photo" are both text-to-image, but only "photo" earns the keyword bonus |
| DecisionAgent.Reasons | core/decision_agent.py:205-223 | the file reason comes first; the batch, video, image and interpolation reasons appear exactly when their conditions hold |
| DecisionAgent.ReasonTexts | core/decision_agent.py:207-223 | one text per reason, in order |
| DecisionAgent.GenerateReasoning | core/decision_agent.py:203-227 | the appends build the explanation of `Reasons` |
| DecisionAgent.ExplanationShape | core/decision_agent.py:225 | any explanation names the task type right after its lead and contains its first reason |
| DecisionAgent.ExplanationNamesTypeAndFiles | core/decision_agent.py:225 | the sentence names the task type after its lead and contains the file reason |
| DecisionAgent.NoFileExplanation | core/decision_agent.py:207-225 | with no file the sentence says no file was uploaded |
| DecisionAgent.AnalyzeIntent | core/decision_agent.py:39-81 | every field of the analysis from its operation; never multimodal; confidence in 0.5..1.0 |
| DecisionAgent.ActionDescription | core/decision_agent.py:350-361 | the table entry, and the unknown-task text exactly for types not in the table |
| DecisionAgent.DescribedTaskTypes | core/decision_agent.py:352-359 | every task type but multimodal has its own, distinct description |
| DecisionAgent.PlanBatchSteps | core/decision_agent.py:302-317 | one image-to-image step per scene, numbered from 1, with batch index and total |
| DecisionAgent.PlanExecution | core/decision_agent.py:265-317 | one described step for a non-batch type; for a batch, steps 1..N (N ≤ 4, none when no scene), each the image-to-image step of its scene with the same files, batch index, no extracted parameters and the 50-character description; raising exactly when the scene parser raises |
| DecisionAgent.TooShortIsStrippedLength | core/decision_agent.py:375 | `not message or len(message.strip()) < n` is the stripped length test |
| DecisionAgent.ValidationErrors | core/decision_agent.py:370-403 | at most three errors |
| DecisionAgent.ValidateInput | core/decision_agent.py:363-408 | every rule of the type is checked; valid exactly when no error |
| DecisionAgent.BatchValidIff | core/decision_agent.py:372-381 | a batch request is valid exactly with a file, 10 stripped characters and a scene label |
| DecisionAgent.UndescribedTypesAreValid | core/decision_agent.py:370-408 | types without rules, such as multimodal, are always valid |
| DecisionAgent.EmptyBatchThreeErrors | core/decision_agent.py:372-381 | an empty batch request without files gets all three errors, in order |
| DecisionAgent.ClassifiedBatchHasReference | core/decision_agent.py:373-374 | a message classified as batch never lacks its reference image |
| ErrorHandling.ClassifyError | core/error_handler.py:68-84 | the kind found signals, and no kind tested earlier signals |
| ErrorHandling.ClassifyIgnoresCase | core/error_handler.py:70 | classification ignores case |
| ErrorHandling.TimeoutErrorIsTimeout | core/error_handler.py:72-73 | a TimeoutError is a timeout whatever its message |
| ErrorHandling.ShouldRetry | core/error_handler.py:86-93 | retry exactly for api errors, timeouts and rate limits |
| ErrorHandling.GetRetryStrategy | core/error_handler.py:95-143 | min wait ≤ max wait; no attempts exactly for auth errors, which wait nothing; the others back off exponentially |
| ErrorHandling.UnknownHasAttemptsButNoRetry | core/error_handler.py:86-140 | unknown errors are not retried yet have two attempts in the table |
| ErrorHandling.RateLimitIsMostPatient | core/error_handler.py:105-141 | rate limits have the most attempts and the longest wait |
| ErrorHandling.CleanupsOf | core/error_handler.py:158-165 | at most one cleanup per task |
| ErrorHandling.CleanupsAreCompletedReversed | core/error_handler.py:159-165 | the cleanups are the completed tasks' ids in reverse order |
| ErrorHandling.MissingIdRaises | core/error_handler.py:160-163 | a completed task without an id makes rollback raise KeyError |
| ErrorHandling.Count | core/error_handler.py:176-178 | a count never exceeds the history length |
| ErrorHandling.CountsSumToTotal | core/error_handler.py:175-181 | the per-kind counts sum to the total |
| ErrorHandling.Recent | core/error_handler.py:183 | the last min(10, n) records |
| ErrorHandling.ErrorHandler.constructor | core/error_handler.py:32-40 | an empty history and the given retry limit |
| ErrorHandling.ErrorHandler.HandleError | core/error_handler.py:42-66 | exactly one record appended, with the classified kind and the matching retry decision; earlier records unchanged |
| ErrorHandling.ErrorHandler.Rollback | core/error_handler.py:145-171 | succeeds exactly when no completed task lacks an id; then success, the cleanups and the error count |
| ErrorHandling.ErrorHandler.ErrorStatistics | core/error_handler.py:173-184 | total, a count for exactly the kinds seen, and the recent records |
| ErrorHandling.ErrStays | core/error_handler.py:159-163 | a raising suffix makes the whole rollback raise |
| Memory.KeepLast | core/memory_manager.py:73-75 | at most `n` entries, a suffix of the list |
| Memory.KeepLastKeepsNewest | core/memory_manager.py:66-75 | truncating after an append keeps the appended entry last |
| Memory.MergeOverwritesAndKeeps | core/memory_manager.py:168 | `dict.update`: given keys overwrite, other keys stay, nothing else appears |
| Memory.HistorySlice | core/memory_manager.py:93 | `[-limit:]`: the last `limit` entries, all of them for 0, all but the first `-limit` for a negative limit |
| Memory.LatestTurnIsLast | core/memory_manager.py:66-93 | after adding a turn, a history of one returns that turn |
| Memory.MemoryManager.constructor | core/memory_manager.py:36-41 | the default structure: three empty maps |
| Memory.MemoryManager.AddConversation | core/memory_manager.py:53-77 | the turn is appended to its session (created if needed), the last 100 kept, the new turn last; other sessions, tasks and preferences unchanged |
| Memory.MemoryManager.GetConversationHistory | core/memory_manager.py:79-93 | `[]` for an unknown session, otherwise `turns[-limit:]` |
| Memory.MemoryManager.AddTask | core/memory_manager.py:95-108 | the record replaces any earlier one under that id, with both time stamps set |
| Memory.MemoryManager.UpdateTaskStatus | core/memory_manager.py:110-126 | no change for an unknown id; otherwise status and update time set, and the result only when given |
| Memory.MemoryManager.GetTask | core/memory_manager.py:128-138 | the record exactly when the id is known |
| Memory.MemoryManager.GetUserPreferences | core/memory_manager.py:140-155 | the stored preferences, or the fixed defaults |
| Memory.MemoryManager.UpdateUserPreferences | core/memory_manager.py:157-169 | the update merged into the stored preferences (or into none) |
| Memory.MemoryManager.ClearSession | core/memory_manager.py:171-180 | only that session is removed; nothing changes when it is absent |
| Memory.MemoryManager.GetStatistics | core/memory_manager.py:182-189 | the sizes of the three maps and the last save time |
| Gemini.DetectTaskType | core/gemini_engine.py:163-189 | image exactly when an image word occurs; speech-to-video exactly for video and speech words without image words |
| Gemini.VideoImageWordsAreImageWords | core/gemini_engine.py:174-181 | every word of the video-plus-image test is an image word |
| Gemini.VideoGenUnreachable | core/gemini_engine.py:174-182 | `video_gen` is never returned |
| Gemini.DetectFallsThrough | core/gemini_engine.py:184-189 | other inputs are multimodal exactly with a multimodal word, else text |
| Gemini.DubbedVideo | core/gemini_engine.py:178-180 | "配音视频" is speech-to-video |
| Gemini.PictureVideoIsImage | core/gemini_engine.py:174-175 | "图片视频" is an image request |
| Gemini.ResponseConfidence | core/gemini_engine.py:191-205 | confidence lies in 0.3..0.9; 0.3 under 10 characters, 0.9 over 100 |
| Gemini.ConfidenceMonotone | core/gemini_engine.py:199-205 | a longer reply never scores lower |
| Gemini.Preamble | core/gemini_engine.py:104-112 | the system prompt and the scripted reply exactly when a non-empty system prompt is given |
| Gemini.AlternatingSuffix | core/gemini_engine.py:115 | cutting an even number of entries off an alternating history leaves it alternating |
| Gemini.RecentAlternate | core/gemini_engine.py:115 | the last ten entries of an alternating history still alternate from the user |
| Gemini.RequestAlternates | core/gemini_engine.py:114-125 | without a system prompt the request alternates, has at most 11 items and ends with the input |
| Gemini.AlternatingAppend | core/gemini_engine.py:137-138 | appending the user's input and then the reply keeps the history alternating |
| Gemini.SummaryOf | core/gemini_engine.py:212-218 | the no-history text for an empty history; an IndexError exactly for a one-entry history |
| Gemini.SummaryAfterChat | core/gemini_engine.py:217-218 | after a chat, the summary counts entries and quotes the first 50 characters of that chat's input |
| Gemini.AlternatingSummaryOk | core/gemini_engine.py:212-218 | a history built by chats never hits the IndexError |
| Gemini.Engine.constructor | core/gemini_engine.py:83 | an empty history |
| Gemini.Engine.Chat | core/gemini_engine.py:89-157 | the request sent is preamble, last ten entries and the input; the history gains the input and the reply; detector and confidence on the reply |
| Gemini.Engine.ClearHistory | core/gemini_engine.py:207-210 | an empty history |
| Gemini.Engine.HistorySummary | core/gemini_engine.py:212-218 | the summary of the current history |
| App.SimpleIntentAnalysis | app.py:375-403 | by file count: video words pick the video type with 0 or 1 file, interpolation words the first-to-last type with 2; otherwise image-to-image; the message is echoed as prompt with the fixed reasoning |
| App.FallbackNeedsNoMoreFiles | app.py:380-396 | the fallback's type never draws a missing-attachment error from `validate_input` |
| App.FallbackInterpolationAgrees | app.py:390-392 | with two files, the fallback's interpolation words other than 转换 also make the main classifier pick first-to-last |
| App.VideoModeOf | app.py:166-204 | an empty prompt is refused unless the mode is first-to-last; first-to-last needs both named frames; image-to-video only with a named image |
| App.TextIsTheFallbackMode | app.py:191-204 | any other case with a prompt is text-to-video |
| App.MimeType | app.py:230-235 | MP4 names are video, PNG and JPG names image/png, anything else octet-stream |
| App.EndsWithSuffix | app.py:230-232 | a name plus an extension ends with it |
| App.MimeOfExtension | app.py:230-233 | a JPEG is sent as image/png, a PNG as image/png, an MP4 as video/mp4 |
| App.ExecuteDispatch | app.py:405-573 | dispatch to the named type, which must be one of six; image-to-video needs a path, first-to-last two; a batch fails with the IndexError text exactly when the scene parser as written raises; any other type raises the unknown-type error |
| App.EmptySceneBatchFails | app.py:445-456 | a batch request whose prompt is only "場景一：" fails in the planner with "string index out of range" |
| App.ExecuteAgreesWithValidation | app.py:522-538 | for the two types with attachment rules, `execute_task` refuses exactly what `validate_input` flags |
| App.MultimodalIsNotExecutable | app.py:567-568 | multimodal passes validation but has no branch |
| App.ClassifiedTypesAreExecutable | app.py:375-403 | every type the main and the fallback classifier return has a branch |

## Left out

- Case folding: `lower()` is modelled on ASCII letters only. The keywords are ASCII or CJK, and CJK has no case.
- `\d` is modelled as the ASCII digits. Python also accepts other Unicode decimal digits.
- `re.IGNORECASE` on "second(s)" is modelled on ASCII only. Python also folds the long s (U+017F).
- Floating point: the decision agent's confidence is kept in exact tenths. The chat engine's confidence is an exact real. Python's rounding of sums such as 0.5 + 0.4 + 0.3 is not modelled.
- Logging, time stamps and the memory file are left out. The memory manager's `_load_memory`/`_save_memory` JSON I/O and its failure handling are not part of this model. `datetime.now()` is a `now` parameter, one value per call, although the source reads the clock separately for an entry and for the save.
- Memory.Value: stored JSON values are limited to strings and integers.
- `analyze_intent`'s `file_types` argument and the unused `task_queue` are left out.
- DecisionAgent.PlanExecution: the non-batch step carries the intent's `parameters` as a record next to prompt and file paths. The source spreads them into the same dictionary; their keys (duration, size, style) never collide with prompt or filePaths. A missing prompt (`None`) is not modelled.
- ErrorHandling.GetRetryStrategy: the fallback to the unknown entry is not modelled, because every error kind has an entry. Multipliers are kept in tenths (1.5 is 15).
- ErrorHandling.Task: a missing `task_id` is modelled; a `task_id` key whose value is `None` is not. For that task the source records a cleanup with id `None`, not a KeyError.
- `ErrorHandler.max_retries` is stored and never read. The record's time stamp is left out.
- Gemini: the client setup, settings and environment lookup are left out. So are the `generate_content` call, the token-usage metadata and the re-raise on failure. `Chat` takes the reply text as a parameter. The `hasattr(response, 'text')` fallback is not modelled.
- App: Flask request parsing, `int()` of the duration field, the file-existence check and `send_file` are left out. So are the generators and the results `execute_task` assembles. Only the branch taken and the errors raised before any generator runs are modelled. In the batch branch, that includes the scene parser's IndexError. Whether the module import at app.py:447 resolves depends on the search path, so it is not modelled.
- Scenes.EmptySceneRaises covers only the as-written reading. For the intended reading, `Scenes.ScenesOf` proves that no input raises.
- tools/ (network clients, polling, retries) and config.py are not part of this model.

## Findings

| source | as written | input that shows it | evidently intended | confidence | as-written member | corrected member |
|---|---|---|---|---|---|---|
| core/decision_agent.py:335 | `match[1] if len(match) > 1 else match[0]` treats every findall item as a tuple. For the single-group patterns (first and third) the item is the captured string, so `match[1]` is its second character. An empty capture raises IndexError. | `場景一：貓在跳舞\n場景二：狗在跑步` gives `["在", "在"]`. `場景一：` raises IndexError. | each scene is the whole captured text: `["貓在跳舞", "狗在跑步"]` | high; not executed | Scenes.TwoScenesParsed | Scenes.ScenesOf |

The reading is a parameter `Reading = AsWritten | Intended` of `Scenes.ScenesOf`, `Scenes.ParseScenes` and `DecisionAgent.PlanExecution`. Under `Intended` the parser never raises and keeps each scene's full text; `DecisionAgent.PlanExecution` proves that a batch plan is then always produced.
