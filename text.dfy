/** The Python string operations the modelled code relies on, written out over
    Dafny strings (sequences of Unicode scalar values, as Python's `str`). */
module Text {

  // ---------------------------------------------------------------------------
  // Characters
  // ---------------------------------------------------------------------------

  /** Python's `str.isspace()`; `\s` in `re`, `str.split()` and `str.strip()`
      all use this set. */
  predicate IsSpace(c: char)
  {
    c == ' ' || '\t' <= c <= '\r' || '\U{1C}' <= c <= '\U{1F}' || c == '\U{85}'
    || c == '\U{A0}' || c == '\U{1680}' || '\U{2000}' <= c <= '\U{200A}'
    || c == '\U{2028}' || c == '\U{2029}' || c == '\U{202F}' || c == '\U{205F}'
    || c == '\U{3000}'
  }

  predicate IsUpper(c: char) { 'A' <= c <= 'Z' }

  predicate IsLowerLetter(c: char) { 'a' <= c <= 'z' }

  /** `\d`: an ASCII decimal digit. */
  predicate IsDigit(c: char) { '0' <= c <= '9' }

  function LowerChar(c: char): char
  {
    if IsUpper(c) then (c as int + 32) as char else c
  }

  /** `str.lower()` on the ASCII letters. */
  function Lower(s: string): string
  {
    seq(|s|, i requires 0 <= i < |s| => LowerChar(s[i]))
  }

  /** No ASCII letter at all: a keyword whose matching cannot depend on case. */
  predicate NoAsciiLetters(w: string)
  {
    forall j :: 0 <= j < |w| ==> !IsUpper(w[j]) && !IsLowerLetter(w[j])
  }

  /** Lowering twice changes nothing more. */
  lemma LowerIdempotent(s: string)
    ensures Lower(Lower(s)) == Lower(s)
  {
  }

  // ---------------------------------------------------------------------------
  // Substrings
  // ---------------------------------------------------------------------------

  /** `w in s` for strings: plain substring containment. */
  predicate Contains(s: string, w: string)
  {
    exists i :: 0 <= i <= |s| && StartsAt(s, i, w)
  }

  /** `any(w in s for w in ws)`. */
  predicate ContainsAny(s: string, ws: seq<string>)
  {
    exists k :: 0 <= k < |ws| && Contains(s, ws[k])
  }

  /** `s[i:].startswith(w)`. */
  predicate StartsAt(s: string, i: nat, w: string)
  {
    i + |w| <= |s| && s[i..i + |w|] == w
  }

  /** `s.endswith(w)`. */
  predicate EndsWith(s: string, w: string)
  {
    |w| <= |s| && s[|s| - |w|..] == w
  }

  lemma ContainsAt(s: string, w: string, i: nat)
    requires StartsAt(s, i, w)
    ensures Contains(s, w)
  {
  }

  lemma ContainsInConcat(a: string, w: string, b: string)
    ensures Contains(a + w + b, w)
  {
    assert StartsAt(a + w + b, |a|, w);
  }

  /** A keyword without ASCII letters is found in the lowered text exactly when
      it is found in the text itself. */
  lemma {:induction false} ContainsLowerIff(s: string, w: string)
    requires NoAsciiLetters(w)
    ensures Contains(Lower(s), w) <==> Contains(s, w)
  {
    if Contains(s, w) {
      var i :| 0 <= i <= |s| && StartsAt(s, i, w);
      assert StartsAt(Lower(s), i, w) by {
        forall j | 0 <= j < |w| ensures Lower(s)[i + j] == w[j] {
          assert s[i + j] == w[j];
        }
      }
    }
    if Contains(Lower(s), w) {
      var i :| 0 <= i <= |Lower(s)| && StartsAt(Lower(s), i, w);
      assert StartsAt(s, i, w) by {
        forall j | 0 <= j < |w| ensures s[i + j] == w[j] {
          assert LowerChar(s[i + j]) == w[j];
        }
      }
    }
  }

  lemma {:induction false} ContainsAnyLowerIff(s: string, ws: seq<string>)
    requires forall k :: 0 <= k < |ws| ==> NoAsciiLetters(ws[k])
    ensures ContainsAny(Lower(s), ws) <==> ContainsAny(s, ws)
  {
    forall k | 0 <= k < |ws| ensures Contains(Lower(s), ws[k]) <==> Contains(s, ws[k]) {
      ContainsLowerIff(s, ws[k]);
    }
  }

  /** A word with a character the text lacks is not in the text. */
  lemma AbsentChar(s: string, w: string, j: nat)
    requires j < |w| && w[j] !in s
    ensures !Contains(s, w)
  {
    forall i | 0 <= i <= |s| ensures !StartsAt(s, i, w) {
      if i + |w| <= |s| {
        assert s[i + j] in s;
        assert s[i..i + |w|][j] == s[i + j];
      }
    }
  }

  /** None of the words is in the text when none of their first characters is. */
  lemma NoFirstCharNoneContained(s: string, ws: seq<string>)
    requires forall k :: 0 <= k < |ws| ==> |ws[k]| > 0 && ws[k][0] !in s
    ensures !ContainsAny(s, ws)
  {
    forall k | 0 <= k < |ws| ensures !Contains(s, ws[k]) {
      AbsentChar(s, ws[k], 0);
    }
  }

  /** Lowering a text without upper-case letters changes nothing. */
  lemma LowerNoUpper(s: string)
    requires forall i :: 0 <= i < |s| ==> !IsUpper(s[i])
    ensures Lower(s) == s
  {
  }

  lemma {:induction false} ContainsTail(s: string, w: string)
    requires |s| > 0 && Contains(s[1..], w)
    ensures Contains(s, w)
  {
    var i :| 0 <= i <= |s[1..]| && StartsAt(s[1..], i, w);
    assert StartsAt(s, i + 1, w);
  }

  /** `s.replace(w, "")`: occurrences are removed left to right in one pass,
      without overlapping and without looking again at what the removal joins. */
  function RemoveAll(s: string, w: string): (r: string)
    requires |w| > 0
    ensures |r| <= |s|
    ensures Contains(s, w) ==> |r| <= |s| - |w|
    decreases |s|
  {
    if |s| < |w| then s
    else if s[..|w|] == w then RemoveAll(s[|w|..], w)
    else
      var rest := RemoveAll(s[1..], w);
      assert Contains(s, w) ==> Contains(s[1..], w) by {
        if Contains(s, w) {
          var i :| 0 <= i <= |s| && StartsAt(s, i, w);
          assert i != 0;
          assert StartsAt(s[1..], i - 1, w);
        }
      }
      [s[0]] + rest
  }

  /** A text that does not contain the word is left as it is. */
  lemma {:induction false} RemoveAllAbsent(s: string, w: string)
    requires |w| > 0 && !Contains(s, w)
    ensures RemoveAll(s, w) == s
    decreases |s|
  {
    if |s| >= |w| {
      assert s[..|w|] != w by { if s[..|w|] == w { ContainsAt(s, w, 0); } }
      if Contains(s[1..], w) { ContainsTail(s, w); }
      RemoveAllAbsent(s[1..], w);
    }
  }

  // ---------------------------------------------------------------------------
  // Whitespace: strip, split, join
  // ---------------------------------------------------------------------------

  /** Neither end is whitespace (the empty string qualifies). */
  predicate IsStripped(s: string)
  {
    |s| == 0 || (!IsSpace(s[0]) && !IsSpace(s[|s| - 1]))
  }

  /** `s.lstrip()`: drop the leading whitespace. */
  function TrimStart(s: string): (r: string)
    ensures |r| <= |s|
    ensures |r| > 0 ==> !IsSpace(r[0])
    decreases |s|
  {
    if |s| > 0 && IsSpace(s[0]) then TrimStart(s[1..]) else s
  }

  /** `lstrip` keeps a suffix and removes whitespace only. */
  lemma {:induction false} TrimStartSuffix(s: string)
    ensures TrimStart(s) == s[|s| - |TrimStart(s)|..]
    ensures forall i :: 0 <= i < |s| - |TrimStart(s)| ==> IsSpace(s[i])
    decreases |s|
  {
    if |s| > 0 && IsSpace(s[0]) {
      TrimStartSuffix(s[1..]);
      assert s[1..][|s| - 1 - |TrimStart(s)|..] == s[|s| - |TrimStart(s)|..];
      forall i | 1 <= i < |s| - |TrimStart(s)|
        ensures IsSpace(s[i])
      {
        assert s[i] == s[1..][i - 1];
      }
    }
  }

  /** `s.rstrip()`: drop the trailing whitespace. */
  function TrimEnd(s: string): (r: string)
    ensures |r| <= |s|
    ensures |r| > 0 ==> !IsSpace(r[|r| - 1])
    decreases |s|
  {
    if |s| > 0 && IsSpace(s[|s| - 1]) then TrimEnd(s[..|s| - 1]) else s
  }

  /** `rstrip` keeps a prefix and removes whitespace only. */
  lemma {:induction false} TrimEndPrefix(s: string)
    ensures TrimEnd(s) == s[..|TrimEnd(s)|]
    ensures forall i :: |TrimEnd(s)| <= i < |s| ==> IsSpace(s[i])
    decreases |s|
  {
    if |s| > 0 && IsSpace(s[|s| - 1]) {
      TrimEndPrefix(s[..|s| - 1]);
      assert s[..|s| - 1][..|TrimEnd(s)|] == s[..|TrimEnd(s)|];
      forall i | |TrimEnd(s)| <= i < |s| - 1
        ensures IsSpace(s[i])
      {
        assert s[i] == s[..|s| - 1][i];
      }
    }
  }

  /** `s.strip()`: whitespace removed from both ends. */
  function Strip(s: string): (r: string)
    ensures IsStripped(r)
    ensures |r| <= |s|
  {
    var t := TrimStart(s);
    TrimEndPrefix(t);
    var r := TrimEnd(t);
    assert |r| > 0 ==> r[0] == t[0];
    r
  }

  /** What `strip` returns is the slice of its argument that starts after the
      leading whitespace, and only whitespace follows it. */
  lemma StripIsSlice(s: string)
    ensures var i := |s| - |TrimStart(s)|;
      StartsAt(s, i, Strip(s))
      && (forall j :: 0 <= j < i ==> IsSpace(s[j]))
      && (forall j :: i + |Strip(s)| <= j < |s| ==> IsSpace(s[j]))
  {
    var t := TrimStart(s);
    var r := TrimEnd(t);
    var i := |s| - |t|;
    TrimStartSuffix(s);
    TrimEndPrefix(t);
    assert r == Strip(s);
    assert t == s[i..];
    assert s[i..i + |r|] == t[..|r|] == r;
    forall j | i + |r| <= j < |s|
      ensures IsSpace(s[j])
    {
      assert s[j] == t[j - i];
    }
  }

  /** Stripping a stripped string changes nothing. */
  lemma StripStripped(s: string)
    requires IsStripped(s)
    ensures Strip(s) == s
  {
  }

  /** A non-empty run of non-whitespace characters. */
  predicate IsWord(w: string)
  {
    |w| > 0 && forall i :: 0 <= i < |w| ==> !IsSpace(w[i])
  }

  /** The length of the leading run of non-whitespace characters. */
  function WordLen(s: string): (n: nat)
    ensures n <= |s|
    ensures forall i :: 0 <= i < n ==> !IsSpace(s[i])
    ensures n < |s| ==> IsSpace(s[n])
    decreases |s|
  {
    if |s| == 0 || IsSpace(s[0]) then 0 else 1 + WordLen(s[1..])
  }

  /** `s.split()`: the maximal runs of non-whitespace characters, in order. */
  function Words(s: string): (ws: seq<string>)
    ensures forall k :: 0 <= k < |ws| ==> IsWord(ws[k])
    decreases |s|
  {
    if |s| == 0 then []
    else if IsSpace(s[0]) then Words(s[1..])
    else
      var n := WordLen(s);
      [s[..n]] + Words(s[n..])
  }

  /** `sep.join(ws)`. */
  function JoinWith(sep: string, ws: seq<string>): (r: string)
    ensures |ws| > 0 ==> |ws[0]| <= |r| && r[..|ws[0]|] == ws[0]
  {
    if |ws| == 0 then ""
    else if |ws| == 1 then ws[0]
    else ws[0] + sep + JoinWith(sep, ws[1..])
  }

  /** Single spaces between words, nothing at either end. */
  predicate Tidy(s: string)
  {
    && (|s| > 0 ==> !IsSpace(s[0]))
    && forall i :: 0 <= i < |s| && IsSpace(s[i]) ==> s[i] == ' ' && i + 1 < |s| && !IsSpace(s[i + 1])
  }

  /** Joining words with one space gives a tidy string. */
  lemma {:induction false} JoinWordsTidy(ws: seq<string>)
    requires forall k :: 0 <= k < |ws| ==> IsWord(ws[k])
    ensures Tidy(JoinWith(" ", ws))
    ensures |ws| > 0 ==> |JoinWith(" ", ws)| > 0
  {
    if |ws| >= 2 {
      JoinWordsTidy(ws[1..]);
      var w, t := ws[0], JoinWith(" ", ws[1..]);
      var s := w + " " + t;
      assert JoinWith(" ", ws) == s;
      assert !IsSpace(t[0]) by { assert t[..|ws[1]|] == ws[1]; assert t[0] == ws[1][0]; }
      forall i | 0 <= i < |s| && IsSpace(s[i])
        ensures s[i] == ' ' && i + 1 < |s| && !IsSpace(s[i + 1])
      {
        if i > |w| {
          assert s[i] == t[i - |w| - 1];
          assert s[i + 1] == t[i - |w|];
        }
      }
    }
  }

  /** `' '.join(s.split())`. */
  function Normalize(s: string): string
  {
    JoinWith(" ", Words(s))
  }

  lemma NormalizeTidy(s: string)
    ensures Tidy(Normalize(s))
  {
    JoinWordsTidy(Words(s));
  }

  /** A tidy string has no whitespace at either end, so `strip()` keeps it. */
  lemma TidyIsStripped(s: string)
    requires Tidy(s)
    ensures IsStripped(s) && Strip(s) == s
  {
  }

  lemma {:induction false} WordsOfWord(w: string, rest: string)
    requires IsWord(w)
    requires |rest| == 0 || IsSpace(rest[0])
    ensures Words(w + rest) == [w] + Words(rest)
  {
    var s := w + rest;
    WordLenOfWord(w, rest);
    assert s[..|w|] == w && s[|w|..] == rest;
  }

  lemma {:induction false} WordLenOfWord(w: string, rest: string)
    requires forall i :: 0 <= i < |w| ==> !IsSpace(w[i])
    requires |rest| == 0 || IsSpace(rest[0])
    ensures WordLen(w + rest) == |w|
    decreases |w|
  {
    if |w| > 0 {
      assert (w + rest)[1..] == w[1..] + rest;
      WordLenOfWord(w[1..], rest);
    }
  }

  /** Splitting a space-joined list of words gives the words back. */
  lemma {:induction false} WordsOfJoin(ws: seq<string>)
    requires forall k :: 0 <= k < |ws| ==> IsWord(ws[k])
    ensures Words(JoinWith(" ", ws)) == ws
  {
    if |ws| == 1 {
      WordsOfWord(ws[0], "");
      assert ws[0] + "" == ws[0];
    } else if |ws| >= 2 {
      var t := JoinWith(" ", ws[1..]);
      WordsOfJoin(ws[1..]);
      WordsOfWord(ws[0], " " + t);
      assert ws[0] + " " + t == ws[0] + (" " + t);
      assert (" " + t)[1..] == t;
    }
  }

  /** Normalising twice is the same as normalising once. */
  lemma NormalizeIdempotent(s: string)
    ensures Normalize(Normalize(s)) == Normalize(s)
  {
    WordsOfJoin(Words(s));
  }

  /** `s.split(c)`: the pieces between occurrences of `c`, empty ones kept. */
  function SplitOn(s: string, c: char): (parts: seq<string>)
    ensures |parts| >= 1
    decreases |s|
  {
    if |s| == 0 then [""]
    else
      var rest := SplitOn(s[1..], c);
      if s[0] == c then [""] + rest else [[s[0]] + rest[0]] + rest[1..]
  }

  /** No piece contains the separator, and joining the pieces with it gives
      the text back. */
  lemma {:induction false} SplitOnJoin(s: string, c: char)
    ensures forall k :: 0 <= k < |SplitOn(s, c)| ==> c !in SplitOn(s, c)[k]
    ensures JoinWith([c], SplitOn(s, c)) == s
    decreases |s|
  {
    if |s| > 0 {
      SplitOnJoin(s[1..], c);
      var rest := SplitOn(s[1..], c);
      if s[0] == c {
        assert SplitOn(s, c) == [""] + rest;
        assert ([""] + rest)[1..] == rest;
      } else {
        var parts := [[s[0]] + rest[0]] + rest[1..];
        assert SplitOn(s, c) == parts;
        if |rest| == 1 {
          assert JoinWith([c], rest) == rest[0];
        } else {
          assert parts[1..] == rest[1..];
          assert JoinWith([c], rest) == rest[0] + [c] + JoinWith([c], rest[1..]);
        }
      }
    }
  }

  // ---------------------------------------------------------------------------
  // Slices
  // ---------------------------------------------------------------------------

  /** `xs[:n]` for a non-negative `n`. */
  function Take<T>(xs: seq<T>, n: nat): (r: seq<T>)
    ensures |r| == if n < |xs| then n else |xs|
    ensures r == xs[..|r|]
  {
    if n < |xs| then xs[..n] else xs
  }

  /** `xs[start:]` with Python's rules for a negative or too large start. */
  function SliceFrom<T>(xs: seq<T>, start: int): (r: seq<T>)
    ensures start >= 0 ==> r == xs[if start < |xs| then start else |xs|..]
    ensures start < 0 ==> r == xs[if -start < |xs| then |xs| + start else 0..]
  {
    var from := if start < 0 then (if |xs| + start < 0 then 0 else |xs| + start)
                else if start < |xs| then start else |xs|;
    xs[from..]
  }

  // ---------------------------------------------------------------------------
  // Decimal numbers
  // ---------------------------------------------------------------------------

  predicate AllDigits(s: string)
  {
    forall i :: 0 <= i < |s| ==> IsDigit(s[i])
  }

  function DigitChar(d: nat): char
    requires d < 10
  {
    ('0' as int + d) as char
  }

  /** `int(s)` for a string of ASCII digits. */
  function DigitsValue(s: string): nat
    requires AllDigits(s)
  {
    if |s| == 0 then 0 else 10 * DigitsValue(s[..|s| - 1]) + (s[|s| - 1] as int - '0' as int)
  }

  /** `str(n)`: decimal digits without leading zeros. */
  function NatToString(n: nat): (r: string)
    ensures |r| >= 1 && AllDigits(r)
    ensures r[0] == '0' ==> n == 0
    decreases n
  {
    if n < 10 then [DigitChar(n)] else NatToString(n / 10) + [DigitChar(n % 10)]
  }

  /** `int(str(n)) == n`. */
  lemma {:induction false} DigitsValueOfNatToString(n: nat)
    ensures DigitsValue(NatToString(n)) == n
    decreases n
  {
    if n >= 10 {
      var p := NatToString(n / 10);
      DigitsValueOfNatToString(n / 10);
      assert (p + [DigitChar(n % 10)])[..|p|] == p;
    }
  }

  /** `str(i)` for any integer. */
  function IntToString(i: int): (r: string)
    ensures |r| >= 1
    ensures i >= 0 ==> AllDigits(r) && DigitsValue(r) == i
    ensures i < 0 ==> r[0] == '-'
  {
    if i < 0 then "-" + NatToString(-i)
    else DigitsValueOfNatToString(i); NatToString(i)
  }
}
