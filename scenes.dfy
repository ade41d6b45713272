/** The scene splitter `_parse_scenes` of core/decision_agent.py: four scene
    regular expressions searched with `re.findall(..., re.DOTALL)`, a paragraph
    fallback, and a cut to four scenes. */
module Scenes {
  import opened Text
  import opened Wrappers
  import Patterns

  /** `<lead><label><tail>(.*?)(?=<lead><label><tail>|$)`, where the label is
      one of 一二三四, or `(\d+)` when `numericLabel` holds. */
  datatype ScenePattern = ScenePattern(lead: string, numericLabel: bool, tail: string)

  /** In the order they are tried. The numeric ones have two groups. */
  const ScenePatterns: seq<ScenePattern> := [
    ScenePattern("場景", false, "："),
    ScenePattern("場景", true, "："),
    ScenePattern("第", false, "張："),
    ScenePattern("第", true, "張：")
  ]

  const ChineseNumerals: string := "一二三四"

  /** The end of a scene header matching at `i`. */
  function HeaderEnd(s: string, i: nat, p: ScenePattern): (r: Option<nat>)
    requires i <= |s|
    ensures r.Some? ==> i + |p.lead| + |p.tail| < r.value <= |s|
  {
    if !StartsAt(s, i, p.lead) then None
    else
      var j := i + |p.lead|;
      var k := if p.numericLabel then Patterns.DigitRun(s, j)
               else if j < |s| && s[j] in ChineseNumerals then j + 1 else j;
      if k == j || !StartsAt(s, k, p.tail) then None else Some(k + |p.tail|)
  }

  /** `$` without MULTILINE: the end of the text, or just before a final newline. */
  predicate AtEnd(s: string, e: nat)
  {
    e == |s| || (e + 1 == |s| && s[e] == '\n')
  }

  /** Where the lazy `(.*?)` stops: the first position from `from` on at which
      the lookahead (another header, or `$`) holds. */
  function BodyEnd(s: string, from: nat, p: ScenePattern): (e: nat)
    requires from <= |s|
    ensures from <= e <= |s|
    ensures AtEnd(s, e) || HeaderEnd(s, e, p).Some?
    ensures forall k :: from <= k < e ==> !AtEnd(s, k) && HeaderEnd(s, k, p).None?
    decreases |s| - from
  {
    if AtEnd(s, from) || HeaderEnd(s, from, p).Some? then from else BodyEnd(s, from + 1, p)
  }

  /** An item of a `re.findall` result: a plain string for a pattern with one
      group, a tuple of both groups for a pattern with two. */
  datatype Found = Capture(text: string) | Pair(number: string, text: string)

  /** `re.findall(p, s[pos:])`: each match starts at the next header and
      scanning resumes where the match ended. */
  function FindAll(s: string, pos: nat, p: ScenePattern): (ms: seq<Found>)
    requires pos <= |s|
    ensures forall k :: 0 <= k < |ms| ==> (ms[k].Pair? <==> p.numericLabel)
    decreases |s| - pos
  {
    if pos == |s| then []
    else match HeaderEnd(s, pos, p)
      case None => FindAll(s, pos + 1, p)
      case Some(c) =>
        var e := BodyEnd(s, c, p);
        var item := if p.numericLabel then Pair(s[pos + |p.lead|..c - |p.tail|], s[c..e])
                    else Capture(s[c..e]);
        [item] + FindAll(s, e, p)
  }

  /** Raised by indexing an empty string. */
  datatype SceneError = IndexError

  /** How a `findall` item is turned into scene text. */
  datatype Reading =
    | AsWritten  // `match[1] if len(match) > 1 else match[0]`, as in the code
    | Intended   // the scene-text group itself

  /** The scene text taken from one `findall` item. As written, a one-group
      item is a string, so `match[1]` is its second character. */
  function SceneText(m: Found, reading: Reading): (r: Result<string, SceneError>)
    ensures reading == Intended ==> r == Ok(m.text)
    ensures reading == AsWritten && m.Capture? ==> (r.Ok? <==> |m.text| > 0)
    ensures reading == AsWritten && m.Capture? && r.Ok? ==> |r.value| == 1 && r.value[0] in m.text
  {
    match m
    case Pair(_, text) => Ok(text)
    case Capture(text) =>
      if reading == Intended then Ok(text)
      else if |text| > 1 then Ok([text[1]])
      else if |text| == 1 then Ok([text[0]])
      else Err(IndexError)
  }

  /** Every scene is non-empty and stripped. */
  predicate CleanScenes(scenes: seq<string>)
  {
    forall k :: 0 <= k < |scenes| ==> scenes[k] != "" && IsStripped(scenes[k])
  }

  /** The inner loop over the matches of one pattern: strip each scene text
      and keep the non-empty ones, failing at the first item that raises. */
  function CollectScenes(ms: seq<Found>, reading: Reading): (r: Result<seq<string>, SceneError>)
    ensures r.Ok? ==> CleanScenes(r.value)
    ensures r.Ok? ==> |r.value| <= |ms|
    ensures reading == Intended ==> r.Ok?
  {
    if |ms| == 0 then Ok([])
    else match CollectScenes(ms[..|ms| - 1], reading)
      case Err(e) => Err(e)
      case Ok(previous) =>
        match SceneText(ms[|ms| - 1], reading)
        case Err(e) => Err(e)
        case Ok(text) =>
          var t := Strip(text);
          Ok(if t == "" then previous else previous + [t])
  }

  /** Once an item raises, the whole collection raises. */
  lemma {:induction false} CollectErrStays(ms: seq<Found>, i: nat, reading: Reading)
    requires i <= |ms|
    requires CollectScenes(ms[..i], reading) == Err(IndexError)
    ensures CollectScenes(ms, reading) == Err(IndexError)
    decreases |ms| - i
  {
    if i < |ms| {
      assert ms[..i + 1][..i] == ms[..i];
      CollectErrStays(ms, i + 1, reading);
    } else {
      assert ms[..i] == ms;
    }
  }

  /** As written, every scene from a one-group pattern is a single character. */
  lemma {:induction false} CapturesGiveOneCharacter(ms: seq<Found>)
    requires forall k :: 0 <= k < |ms| ==> ms[k].Capture?
    requires CollectScenes(ms, AsWritten).Ok?
    ensures forall k :: 0 <= k < |CollectScenes(ms, AsWritten).value| ==> |CollectScenes(ms, AsWritten).value[k]| == 1
  {
    if |ms| > 0 {
      CapturesGiveOneCharacter(ms[..|ms| - 1]);
      var text := SceneText(ms[|ms| - 1], AsWritten).value;
      assert |text| == 1;
      assert Strip(text) == "" || Strip(text) == text;
    }
  }

  /** The loop over the patterns: the first pattern with any match decides. */
  function PatternScenes(prompt: string, patterns: seq<ScenePattern>, reading: Reading): (r: Result<seq<string>, SceneError>)
    ensures r.Ok? ==> CleanScenes(r.value)
    ensures reading == Intended ==> r.Ok?
  {
    if |patterns| == 0 then Ok([])
    else
      var ms := FindAll(prompt, 0, patterns[0]);
      if |ms| > 0 then CollectScenes(ms, reading) else PatternScenes(prompt, patterns[1..], reading)
  }

  /** Only the first pattern with a match is used; later ones are not looked at. */
  lemma {:induction false} FirstPatternWins(prompt: string, patterns: seq<ScenePattern>, k: nat, reading: Reading)
    requires k < |patterns|
    requires forall j :: 0 <= j < k ==> FindAll(prompt, 0, patterns[j]) == []
    requires FindAll(prompt, 0, patterns[k]) != []
    ensures PatternScenes(prompt, patterns, reading) == CollectScenes(FindAll(prompt, 0, patterns[k]), reading)
  {
    if k > 0 {
      assert FindAll(prompt, 0, patterns[0]) == [];
      assert patterns[1..][k - 1] == patterns[k];
      assert forall j :: 0 <= j < k - 1 ==> patterns[1..][j] == patterns[j + 1];
      FirstPatternWins(prompt, patterns[1..], k - 1, reading);
    }
  }

  /** A stripped, non-empty scene in front of clean scenes keeps them clean. */
  lemma CleanCons(t: string, rest: seq<string>)
    requires t != "" && IsStripped(t) && CleanScenes(rest)
    ensures CleanScenes([t] + rest)
  {
    forall k | 1 <= k < |rest| + 1
      ensures ([t] + rest)[k] == rest[k - 1]
    {
    }
  }

  /** `[p.strip() for p in parts if p.strip()]`. */
  function NonBlank(parts: seq<string>): (r: seq<string>)
    ensures CleanScenes(r)
    ensures |r| <= |parts|
  {
    if |parts| == 0 then []
    else
      var t := Strip(parts[0]);
      var rest := NonBlank(parts[1..]);
      if t == "" then rest
      else
        CleanCons(t, rest);
        [t] + rest
  }

  /** The non-blank lines of the prompt, stripped. */
  function Paragraphs(prompt: string): seq<string>
  {
    NonBlank(SplitOn(prompt, '\n'))
  }

  /** The scenes chosen before the cut to four: the pattern scenes when there
      are any, else the paragraphs after the first when there are two or more. */
  function ChosenScenes(found: seq<string>, paragraphs: seq<string>): (r: seq<string>)
    requires CleanScenes(found) && CleanScenes(paragraphs)
    ensures CleanScenes(r)
  {
    if |found| > 0 then found
    else if |paragraphs| >= 2 then paragraphs[1..] else []
  }

  /** `_parse_scenes`: the scenes found by the first matching pattern, else
      every non-blank line after the first when there are at least two, cut
      to four. */
  function ScenesOf(prompt: string, reading: Reading): (r: Result<seq<string>, SceneError>)
    ensures r.Ok? ==> |r.value| <= 4
    ensures r.Ok? ==> CleanScenes(r.value)
    ensures reading == Intended ==> r.Ok?
  {
    match PatternScenes(prompt, ScenePatterns, reading)
    case Err(e) => Err(e)
    case Ok(found) =>
      var scenes := ChosenScenes(found, Paragraphs(prompt));
      assert CleanScenes(scenes);
      Ok(Take(scenes, 4))
  }

  /** With no scene header anywhere, the scenes are the non-blank lines after
      the first one, and there are none unless there are two such lines. */
  lemma ParagraphFallback(prompt: string, reading: Reading)
    requires forall j :: 0 <= j < |ScenePatterns| ==> FindAll(prompt, 0, ScenePatterns[j]) == []
    ensures |Paragraphs(prompt)| < 2 ==> ScenesOf(prompt, reading) == Ok([])
    ensures |Paragraphs(prompt)| >= 2 ==> ScenesOf(prompt, reading) == Ok(Take(Paragraphs(prompt)[1..], 4))
  {
    assert PatternScenes(prompt, ScenePatterns[3..], reading) == Ok([]);
    assert PatternScenes(prompt, ScenePatterns[2..], reading) == Ok([]);
    assert PatternScenes(prompt, ScenePatterns[1..], reading) == Ok([]);
  }

  /** A match whose text can be taken adds its stripped text, unless blank. */
  lemma CollectKeep(ms: seq<Found>, i: nat, reading: Reading, previous: seq<string>, text: string)
    requires i < |ms|
    requires CollectScenes(ms[..i], reading) == Ok(previous)
    requires SceneText(ms[i], reading) == Ok(text)
    ensures CollectScenes(ms[..i + 1], reading) == Ok(if Strip(text) == "" then previous else previous + [Strip(text)])
  {
    assert ms[..i + 1][..i] == ms[..i] && ms[..i + 1][i] == ms[i];
  }

  /** A match whose text cannot be taken makes the whole collection raise. */
  lemma CollectFail(ms: seq<Found>, i: nat, reading: Reading)
    requires i < |ms|
    requires CollectScenes(ms[..i], reading).Ok?
    requires SceneText(ms[i], reading).Err?
    ensures CollectScenes(ms, reading) == Err(IndexError)
  {
    assert ms[..i + 1][..i] == ms[..i] && ms[..i + 1][i] == ms[i];
    assert CollectScenes(ms[..i + 1], reading) == Err(IndexError);
    CollectErrStays(ms, i + 1, reading);
  }

  /** The inner loop of `_parse_scenes` over the matches of one pattern. */
  method CollectMatches(matches: seq<Found>, reading: Reading) returns (r: Result<seq<string>, SceneError>)
    ensures r == CollectScenes(matches, reading)
  {
    var scenes: seq<string> := [];
    var i := 0;
    while i < |matches|
      invariant 0 <= i <= |matches|
      invariant CollectScenes(matches[..i], reading) == Ok(scenes)
    {
      var text := SceneText(matches[i], reading);
      if text.Err? {
        CollectFail(matches, i, reading);
        return Err(IndexError);
      }
      CollectKeep(matches, i, reading, scenes, text.value);
      var t := Strip(text.value);
      if t != "" {
        scenes := scenes + [t];
      }
      i := i + 1;
    }
    assert matches[..i] == matches;
    r := Ok(scenes);
  }

  /** One step of the loop over the patterns. */
  lemma PatternScenesStep(prompt: string, patterns: seq<ScenePattern>, k: nat, reading: Reading)
    requires k < |patterns|
    ensures PatternScenes(prompt, patterns[k..], reading)
      == if |FindAll(prompt, 0, patterns[k])| > 0 then CollectScenes(FindAll(prompt, 0, patterns[k]), reading)
         else PatternScenes(prompt, patterns[k + 1..], reading)
  {
    assert patterns[k..][0] == patterns[k] && patterns[k..][1..] == patterns[k + 1..];
  }

  /** `_parse_scenes`: the first pattern with any match gives the scenes,
      else the paragraph fallback applies; at most four are kept. */
  method ParseScenes(prompt: string, reading: Reading) returns (r: Result<seq<string>, SceneError>)
    ensures r == ScenesOf(prompt, reading)
    ensures r.Ok? ==> |r.value| <= 4
  {
    var scenes: seq<string> := [];
    var k := 0;
    while k < |ScenePatterns|
      invariant 0 <= k <= |ScenePatterns|
      invariant PatternScenes(prompt, ScenePatterns[k..], reading) == PatternScenes(prompt, ScenePatterns, reading)
      invariant scenes == []
    {
      PatternScenesStep(prompt, ScenePatterns, k, reading);
      var matches := FindAll(prompt, 0, ScenePatterns[k]);
      if |matches| > 0 {
        var collected := CollectMatches(matches, reading);
        if collected.Err? {
          return Err(collected.error);
        }
        scenes := collected.value;
        break;
      }
      k := k + 1;
    }
    assert k == |ScenePatterns| ==> PatternScenes(prompt, ScenePatterns[k..], reading) == Ok([]);
    ghost var found := PatternScenes(prompt, ScenePatterns, reading).value;
    assert scenes == found;
    if |scenes| == 0 {
      var paragraphs := Paragraphs(prompt);
      if |paragraphs| >= 2 {
        scenes := paragraphs[1..];
      }
    }
    assert scenes == ChosenScenes(found, Paragraphs(prompt));
    r := Ok(Take(scenes, 4));
  }

  /** A prompt with two labelled scenes. The lemmas about it take the prompt
      as a parameter equal to it, which keeps the solver from evaluating the
      regular expressions on the literal. */
  const TwoScenes: string := "場景一：貓在跳舞\n場景二：狗在跑步"

  /** Where the two labels of the sample end. */
  lemma TwoScenesHeaders(s: string, p: ScenePattern)
    requires s == TwoScenes && p == ScenePatterns[0]
    ensures |s| == 17
    ensures HeaderEnd(s, 0, p) == Some(4) && HeaderEnd(s, 9, p) == Some(13)
  {
    assert s[0..2] == "場景" && s[3..4] == "：";
    assert s[9..11] == "場景" && s[12..13] == "：";
  }

  /** Where the two bodies of the sample end: before the second label, and
      at the end of the text. */
  lemma TwoScenesBodies(s: string, p: ScenePattern)
    requires s == TwoScenes && p == ScenePatterns[0]
    ensures |s| == 17
    ensures BodyEnd(s, 4, p) == 9 && BodyEnd(s, 13, p) == 17
  {
    TwoScenesHeaders(s, p);
    forall k | 4 <= k < 9 || 13 <= k < 17 ensures HeaderEnd(s, k, p).None? {
      assert s[k] != '場';
    }
    assert BodyEnd(s, 8, p) == 9;
    assert BodyEnd(s, 7, p) == 9;
    assert BodyEnd(s, 6, p) == 9;
    assert BodyEnd(s, 5, p) == 9;
    assert BodyEnd(s, 16, p) == 17;
    assert BodyEnd(s, 15, p) == 17;
    assert BodyEnd(s, 14, p) == 17;
  }

  /** `findall` with the first pattern gives the two bodies of the sample,
      as slices of it. */
  lemma TwoScenesMatches(s: string, p: ScenePattern)
    requires s == TwoScenes && p == ScenePatterns[0]
    ensures |s| == 17
    ensures FindAll(s, 0, p) == [Capture(s[4..9]), Capture(s[13..17])]
  {
    TwoScenesHeaders(s, p);
    TwoScenesBodies(s, p);
    assert !p.numericLabel;
    assert FindAll(s, 17, p) == [];
    assert FindAll(s, 9, p) == [Capture(s[13..17])];
    assert FindAll(s, 0, p) == [Capture(s[4..9])] + FindAll(s, 9, p);
  }

  /** The two bodies of the sample, the first with its newline. */
  lemma TwoScenesBodyTexts(s: string)
    requires s == TwoScenes
    ensures s[4..9] == "貓在跳舞\n" && s[13..17] == "狗在跑步"
  {
  }

  lemma OneCharStripped()
    ensures Strip("在") == "在"
  {
    assert !IsSpace('在');
    StripStripped("在");
  }

  lemma FirstBodyStripped()
    ensures Strip("貓在跳舞\n") == "貓在跳舞"
  {
    var s := "貓在跳舞\n";
    assert !IsSpace(s[0]);
    assert TrimStart(s) == s;
    assert IsSpace(s[4]) && s[..4] == "貓在跳舞";
    assert !IsSpace('舞');
    assert TrimEnd("貓在跳舞") == "貓在跳舞";
  }

  lemma SecondBodyStripped()
    ensures Strip("狗在跑步") == "狗在跑步"
  {
    assert !IsSpace('狗') && !IsSpace('步');
    StripStripped("狗在跑步");
  }

  /** Sequence displays built by appending, for any element type. */
  lemma Appended<T>(x: T, y: T)
    ensures [] + [x] == [x] && [x] + [y] == [x, y]
  {
  }

  /** A single match whose text strips to a non-empty scene gives that scene. */
  lemma CollectOne(m: Found, reading: Reading, text: string)
    requires SceneText(m, reading) == Ok(text) && Strip(text) != ""
    ensures CollectScenes([m], reading) == Ok([Strip(text)])
  {
    var one := [m];
    assert one[..0] == [];
    assert CollectScenes(one[..0], reading) == Ok([]);
    assert one[|one| - 1] == m;
    Appended(Strip(text), Strip(text));
  }

  /** Two matches whose texts strip to non-empty scenes give those two scenes. */
  lemma CollectPair(m0: Found, m1: Found, reading: Reading, text0: string, text1: string)
    requires SceneText(m0, reading) == Ok(text0) && Strip(text0) != ""
    requires SceneText(m1, reading) == Ok(text1) && Strip(text1) != ""
    ensures CollectScenes([m0, m1], reading) == Ok([Strip(text0), Strip(text1)])
  {
    CollectOne(m0, reading, text0);
    var two := [m0, m1];
    assert two[..1] == [m0];
    assert CollectScenes(two[..1], reading) == Ok([Strip(text0)]);
    assert two[|two| - 1] == m1;
    Appended(Strip(text0), Strip(text1));
  }

  /** As written, the two captures of the sample give their second characters. */
  lemma TwoScenesCollectedAsWritten(m0: Found, m1: Found)
    requires m0 == Capture("貓在跳舞\n") && m1 == Capture("狗在跑步")
    ensures CollectScenes([m0, m1], AsWritten) == Ok(["在", "在"])
  {
    OneCharStripped();
    assert m0.text[1] == '在' && m1.text[1] == '在';
    CollectPair(m0, m1, AsWritten, "在", "在");
  }

  /** Read as intended, the two captures of the sample give the whole scenes. */
  lemma TwoScenesCollectedIntended(m0: Found, m1: Found)
    requires m0 == Capture("貓在跳舞\n") && m1 == Capture("狗在跑步")
    ensures CollectScenes([m0, m1], Intended) == Ok(["貓在跳舞", "狗在跑步"])
  {
    FirstBodyStripped();
    SecondBodyStripped();
    CollectPair(m0, m1, Intended, m0.text, m1.text);
  }

  /** As written, each scene of a labelled prompt is reduced to its second
      character; read as intended, the scenes are whole. */
  lemma TwoScenesParsed(s: string)
    requires s == TwoScenes
    ensures ScenesOf(s, AsWritten) == Ok(["在", "在"])
    ensures ScenesOf(s, Intended) == Ok(["貓在跳舞", "狗在跑步"])
  {
    var p := ScenePatterns[0];
    var m0, m1 := Capture("貓在跳舞\n"), Capture("狗在跑步");
    TwoScenesMatches(s, p);
    TwoScenesBodyTexts(s);
    TwoScenesCollectedAsWritten(m0, m1);
    TwoScenesCollectedIntended(m0, m1);
    FirstPatternWins(s, ScenePatterns, 0, AsWritten);
    FirstPatternWins(s, ScenePatterns, 0, Intended);
  }

  /** As written, a header with nothing after it raises IndexError. */
  lemma EmptySceneRaises(s: string)
    requires s == "場景一："
    ensures ScenesOf(s, AsWritten) == Err(IndexError)
  {
    var p := ScenePatterns[0];
    assert s[0..2] == "場景" && s[3..4] == "：";
    assert HeaderEnd(s, 0, p) == Some(4);
    assert BodyEnd(s, 4, p) == 4;
    assert FindAll(s, 4, p) == [] && s[4..4] == "";
    assert FindAll(s, 0, p) == [Capture("")] + [];
    FirstPatternWins(s, ScenePatterns, 0, AsWritten);
    var one := [Capture("")];
    assert one[..|one| - 1] == [];
    assert CollectScenes(one, AsWritten) == Err(IndexError);
  }
}
