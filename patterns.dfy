/** The duration and size regular expressions of the parameter extractor
    (core/decision_agent.py), hand-coded. Each `\d+` and `\s*` in them is
    followed by something it cannot match, so greedy matching never backtracks
    and a match attempt at a position is a straight scan. */
module Patterns {
  import opened Text
  import opened Wrappers

  /** The end of the run of ASCII digits starting at `i`. */
  function DigitRun(s: string, i: nat): (j: nat)
    requires i <= |s|
    ensures i <= j <= |s|
    ensures forall k :: i <= k < j ==> IsDigit(s[k])
    ensures j < |s| ==> !IsDigit(s[j])
    decreases |s| - i
  {
    if i < |s| && IsDigit(s[i]) then DigitRun(s, i + 1) else i
  }

  /** The end of the run of whitespace starting at `i`. */
  function SpaceRun(s: string, i: nat): (j: nat)
    requires i <= |s|
    ensures i <= j <= |s|
    ensures forall k :: i <= k < j ==> IsSpace(s[k])
    ensures j < |s| ==> !IsSpace(s[j])
    decreases |s| - i
  {
    if i < |s| && IsSpace(s[i]) then SpaceRun(s, i + 1) else i
  }

  // ---------------------------------------------------------------------------
  // Duration: (\d+)\s*秒|(\d+)\s*seconds?   (re.IGNORECASE)
  // ---------------------------------------------------------------------------

  /** The captured number when the duration pattern matches at `i`. */
  function DurationAt(s: string, i: nat): Option<nat>
    requires i <= |s|
  {
    var j := DigitRun(s, i);
    if j == i then None
    else
      var k := SpaceRun(s, j);
      if StartsAt(s, k, "秒") || (k + 6 <= |s| && Lower(s[k..k + 6]) == "second")
      then Some(DigitsValue(s[i..j]))
      else None
  }

  /** `re.search`: the first position, from `i` on, where the pattern matches. */
  function SearchDuration(s: string, i: nat): Option<nat>
    requires i <= |s|
    decreases |s| - i
  {
    match DurationAt(s, i)
    case Some(v) => Some(v)
    case None => if i == |s| then None else SearchDuration(s, i + 1)
  }

  /** Without a digit there is no duration match. */
  lemma {:induction false} NoDigitNoDuration(s: string, i: nat)
    requires i <= |s|
    requires forall k :: i <= k < |s| ==> !IsDigit(s[k])
    ensures SearchDuration(s, i) == None
    decreases |s| - i
  {
    if i < |s| { NoDigitNoDuration(s, i + 1); }
  }

  /** `min(max(d, 1), 10)`. */
  function Clamp(d: int): int
  {
    if d < 1 then 1 else if d > 10 then 10 else d
  }

  /** The `duration` parameter: the first match clamped to 1..10, else 5. */
  function DurationOf(message: string): (d: int)
    ensures 1 <= d <= 10
    ensures SearchDuration(message, 0) == None ==> d == 5
  {
    match SearchDuration(message, 0)
    case None => 5
    case Some(v) => Clamp(v)
  }

  // ---------------------------------------------------------------------------
  // Size: (\d+)\s*[x×]\s*(\d+), (\d+)\s*:\s*(\d+), (\d+)\s*by\s*(\d+)
  // ---------------------------------------------------------------------------

  /** One size pattern, given by what may stand between the two numbers. */
  datatype SizePattern = SizePattern(separators: seq<string>)

  /** Tried in this order; the first with a match wins. */
  const SizePatterns: seq<SizePattern> :=
    [SizePattern(["x", "×"]), SizePattern([":"]), SizePattern(["by"])]

  /** The end of the first separator found at `k`. */
  function SeparatorEnd(s: string, k: nat, separators: seq<string>): (r: Option<nat>)
    requires k <= |s|
    ensures r.Some? ==> k <= r.value <= |s|
  {
    if |separators| == 0 then None
    else if StartsAt(s, k, separators[0]) then Some(k + |separators[0]|)
    else SeparatorEnd(s, k, separators[1..])
  }

  /** Width and height when the pattern matches at `i`. */
  function SizeAt(s: string, i: nat, p: SizePattern): Option<(nat, nat)>
    requires i <= |s|
  {
    var j := DigitRun(s, i);
    if j == i then None
    else
      var k := SpaceRun(s, j);
      match SeparatorEnd(s, k, p.separators)
      case None => None
      case Some(m) =>
        var n := SpaceRun(s, m);
        var e := DigitRun(s, n);
        if e == n then None else Some((DigitsValue(s[i..j]), DigitsValue(s[n..e])))
  }

  /** `re.search` with one size pattern. */
  function SearchSize(s: string, i: nat, p: SizePattern): Option<(nat, nat)>
    requires i <= |s|
    decreases |s| - i
  {
    match SizeAt(s, i, p)
    case Some(wh) => Some(wh)
    case None => if i == |s| then None else SearchSize(s, i + 1, p)
  }

  /** `f"{width}x{height}"`. */
  function FormatSize(width: nat, height: nat): string
  {
    NatToString(width) + "x" + NatToString(height)
  }

  /** The first pattern of `patterns` that matches, formatted. */
  function FirstSize(s: string, patterns: seq<SizePattern>): Option<string>
  {
    if |patterns| == 0 then None
    else match SearchSize(s, 0, patterns[0])
      case Some(wh) => Some(FormatSize(wh.0, wh.1))
      case None => FirstSize(s, patterns[1..])
  }

  /** One step of the loop over the size patterns. */
  lemma FirstSizeStep(s: string, patterns: seq<SizePattern>, k: nat)
    requires k < |patterns|
    ensures FirstSize(s, patterns[k..])
      == match SearchSize(s, 0, patterns[k])
         case Some(wh) => Some(FormatSize(wh.0, wh.1))
         case None => FirstSize(s, patterns[k + 1..])
  {
    assert patterns[k..][0] == patterns[k] && patterns[k..][1..] == patterns[k + 1..];
  }

  /** The size comes from the first pattern that has a match anywhere in the
      text; there is none exactly when no pattern matches. */
  lemma {:induction false} FirstSizeIsFirstMatch(s: string, patterns: seq<SizePattern>)
    ensures FirstSize(s, patterns).None? <==> forall k :: 0 <= k < |patterns| ==> SearchSize(s, 0, patterns[k]).None?
    ensures FirstSize(s, patterns).Some? ==>
      exists k :: 0 <= k < |patterns| && SearchSize(s, 0, patterns[k]).Some?
        && FirstSize(s, patterns).value == FormatSize(SearchSize(s, 0, patterns[k]).value.0, SearchSize(s, 0, patterns[k]).value.1)
        && forall j :: 0 <= j < k ==> SearchSize(s, 0, patterns[j]).None?
  {
    if |patterns| > 0 && SearchSize(s, 0, patterns[0]).None? {
      var rest := patterns[1..];
      FirstSizeIsFirstMatch(s, rest);
      assert forall k :: 1 <= k < |patterns| ==> patterns[k] == rest[k - 1];
      if FirstSize(s, rest).Some? {
        var k :| 0 <= k < |rest| && SearchSize(s, 0, rest[k]).Some?
          && FirstSize(s, rest).value == FormatSize(SearchSize(s, 0, rest[k]).value.0, SearchSize(s, 0, rest[k]).value.1)
          && forall j :: 0 <= j < k ==> SearchSize(s, 0, rest[j]).None?;
        assert SearchSize(s, 0, patterns[k + 1]).Some?;
      }
    }
  }

  /** The `size` parameter. */
  function SizeOf(message: string): Option<string>
  {
    FirstSize(message, SizePatterns)
  }

  /** A reported size is always "W" + "x" + "H" in canonical decimal. */
  lemma {:induction false} SizeIsFormatted(s: string, patterns: seq<SizePattern>)
    requires FirstSize(s, patterns).Some?
    ensures exists w: nat, h: nat :: FirstSize(s, patterns).value == FormatSize(w, h)
  {
    match SearchSize(s, 0, patterns[0])
    case Some(wh) =>
    case None => SizeIsFormatted(s, patterns[1..]);
  }

  /** Extracting the size from a formatted size gives the same numbers back. */
  lemma SizeOfFormatted(width: nat, height: nat)
    ensures SizeAt(FormatSize(width, height), 0, SizePatterns[0]) == Some((width, height))
  {
    var a, b := NatToString(width), NatToString(height);
    var s := a + "x" + b;
    DigitRunOver(s, 0, |a|);
    assert SpaceRun(s, |a|) == |a|;
    assert StartsAt(s, |a|, "x");
    assert SpaceRun(s, |a| + 1) == |a| + 1;
    DigitRunOver(s, |a| + 1, |s|);
    assert s[0..|a|] == a && s[|a| + 1..|s|] == b;
    DigitsValueOfNatToString(width);
    DigitsValueOfNatToString(height);
  }

  lemma {:induction false} DigitRunOver(s: string, i: nat, j: nat)
    requires i <= j <= |s|
    requires forall k :: i <= k < j ==> IsDigit(s[k])
    requires j < |s| ==> !IsDigit(s[j])
    ensures DigitRun(s, i) == j
    decreases j - i
  {
    if i < j { DigitRunOver(s, i + 1, j); }
  }

  /** Re-extracting the reported size reproduces it. */
  lemma SizeOfIdempotent(message: string)
    requires SizeOf(message).Some?
    ensures SizeOf(SizeOf(message).value) == SizeOf(message)
  {
    SizeIsFormatted(message, SizePatterns);
    var w: nat, h: nat :| SizeOf(message).value == FormatSize(w, h);
    SizeOfFormatted(w, h);
  }

  /** Without a digit from `i` on, no size pattern matches from `i` on. */
  lemma {:induction false} NoDigitNoSize(s: string, i: nat, p: SizePattern)
    requires i <= |s|
    requires forall k :: i <= k < |s| ==> !IsDigit(s[k])
    ensures SearchSize(s, i, p) == None
    decreases |s| - i
  {
    if i < |s| { NoDigitNoSize(s, i + 1, p); }
  }

  // The sample messages below are parameters equal to the literal, which
  // keeps the solver from evaluating the searches on the literal unaided.

  /** "7秒" in a message gives a duration of 7. */
  lemma SevenSeconds(s: string)
    requires s == "生成一個 7秒 的影片"
    ensures DurationOf(s) == 7
  {
    assert s[5] == '7' && s[6] == '秒';
    DigitRunOver(s, 5, 6);
    assert DigitRun(s, 6) == 6 && SpaceRun(s, 6) == 6;
    assert StartsAt(s, 6, "秒");
    assert s[5..6] == "7" && DigitsValue("7") == 7;
    assert DurationAt(s, 5) == Some(7);
    assert SearchDuration(s, 4) == Some(7);
    assert SearchDuration(s, 3) == Some(7);
    assert SearchDuration(s, 2) == Some(7);
    assert SearchDuration(s, 1) == Some(7);
  }

  lemma NoDurationMentioned()
    ensures DurationOf("no duration mentioned") == 5
  {
    NoDigitNoDuration("no duration mentioned", 0);
  }

  /** `int()` and `str()` of the numbers of a full-HD size. */
  lemma FullHdDecimals()
    ensures NatToString(1920) == "1920" && DigitsValue("1920") == 1920
    ensures NatToString(1080) == "1080" && DigitsValue("1080") == 1080
    ensures FormatSize(1920, 1080) == "1920x1080"
  {
    assert NatToString(19) == "19" && NatToString(192) == "192";
    assert NatToString(10) == "10" && NatToString(108) == "108";
    DigitsValueOfNatToString(1920);
    DigitsValueOfNatToString(1080);
    assert "1920" + "x" + "1080" == "1920x1080";
  }

  /** `int()` and `str()` of the numbers of a 16:9 ratio. */
  lemma RatioDecimals()
    ensures NatToString(16) == "16" && DigitsValue("16") == 16
    ensures NatToString(9) == "9" && DigitsValue("9") == 9
    ensures FormatSize(16, 9) == "16x9"
  {
    DigitsValueOfNatToString(16);
    DigitsValueOfNatToString(9);
    assert "16" + "x" + "9" == "16x9";
  }

  lemma FullHdMatch(s: string)
    requires s == "1920x1080 image"
    ensures SizeAt(s, 0, SizePatterns[0]) == Some((1920, 1080))
  {
    DigitRunOver(s, 0, 4);
    assert SpaceRun(s, 4) == 4;
    assert SeparatorEnd(s, 4, SizePatterns[0].separators) == Some(5);
    assert SpaceRun(s, 5) == 5;
    DigitRunOver(s, 5, 9);
    assert s[0..4] == "1920" && s[5..9] == "1080";
    FullHdDecimals();
  }

  lemma FullHdSize(s: string)
    requires s == "1920x1080 image"
    ensures SizeOf(s) == Some("1920x1080")
  {
    FullHdMatch(s);
    assert SearchSize(s, 0, SizePatterns[0]) == Some((1920, 1080));
    FullHdDecimals();
  }

  /** Neither x nor × at `k`: no separator of the first pattern. */
  lemma NoSeparator(s: string, k: nat, p: SizePattern)
    requires p == SizePatterns[0] && k < |s| && s[k] != 'x' && s[k] != '×'
    ensures SeparatorEnd(s, k, p.separators) == None
  {
    var seps := p.separators;
    assert seps[0] == "x" && seps[1..][0] == "×" && seps[1..][1..] == [];
    assert s[k..k + 1][0] == s[k];
    assert !StartsAt(s, k, "x") && !StartsAt(s, k, "×");
    assert SeparatorEnd(s, k, seps[1..][1..]) == None;
    assert SeparatorEnd(s, k, seps[1..]) == None;
  }

  /** "16:9" has no x between its numbers, so the first size pattern misses it. */
  lemma RatioMissesFirstPattern(s: string)
    requires s == "16:9 video"
    ensures SearchSize(s, 0, SizePatterns[0]) == None
  {
    var p := SizePatterns[0];
    NoDigitNoSize(s, 4, p);
    DigitRunOver(s, 3, 4);
    NoSeparator(s, 5, p);
    assert SpaceRun(s, 4) == 5 && SeparatorEnd(s, 5, p.separators) == None;
    assert SearchSize(s, 3, p) == None;
    assert SearchSize(s, 2, p) == None;
    DigitRunOver(s, 1, 2);
    NoSeparator(s, 2, p);
    assert SpaceRun(s, 2) == 2 && SeparatorEnd(s, 2, p.separators) == None;
    assert SearchSize(s, 1, p) == None;
    DigitRunOver(s, 0, 2);
  }

  lemma RatioMatchesSecondPattern(s: string)
    requires s == "16:9 video"
    ensures SizeAt(s, 0, SizePatterns[1]) == Some((16, 9))
  {
    DigitRunOver(s, 0, 2);
    assert SpaceRun(s, 2) == 2;
    assert SeparatorEnd(s, 2, SizePatterns[1].separators) == Some(3);
    assert SpaceRun(s, 3) == 3;
    DigitRunOver(s, 3, 4);
    assert s[0..2] == "16" && s[3..4] == "9";
    RatioDecimals();
  }

  /** A ratio is reported as if it were a width and a height. */
  lemma AspectRatioSize(s: string)
    requires s == "16:9 video"
    ensures SizeOf(s) == Some("16x9")
  {
    RatioMissesFirstPattern(s);
    RatioMatchesSecondPattern(s);
    assert SearchSize(s, 0, SizePatterns[1]) == Some((16, 9));
    RatioDecimals();
    FirstSizeStep(s, SizePatterns, 0);
    FirstSizeStep(s, SizePatterns, 1);
    assert SizePatterns[0..] == SizePatterns;
  }
}
