/**
  The TTS service's text normaliser and the input checks `/synthesize` makes
  before it touches the model. Normalising keeps ASCII letters, ASCII digits
  and whitespace; collapses every whitespace run to one space; lowercases;
  spells out every run of digits; and strips the ends.

  `num2words` is the parameter `numWords`.
*/
module Tts {
  import opened Strings
  import opened Values

  // --------------------------------------------------------------- filter

  /** What `[a-zA-Z0-9\s]` matches. */
  predicate IsAllowed(c: char) {
    IsAsciiLetter(c) || IsAsciiDigit(c) || IsSpace(c)
  }

  /** `re.sub(r"[^a-zA-Z0-9\s]", "", text)` */
  function RemoveDisallowed(s: string): (r: string)
    ensures forall k :: 0 <= k < |r| ==> IsAllowed(r[k])
    ensures forall k :: 0 <= k < |r| ==> r[k] in s
  {
    if s == [] then []
    else (if IsAllowed(s[0]) then [s[0]] else []) + RemoveDisallowed(s[1..])
  }

  /** The filter works character by character: it distributes over concatenation. */
  lemma {:induction false} RemoveDisallowedConcat(a: string, b: string)
    ensures RemoveDisallowed(a + b) == RemoveDisallowed(a) + RemoveDisallowed(b)
  {
    if a != [] {
      assert (a + b)[0] == a[0] && (a + b)[1..] == a[1..] + b;
      RemoveDisallowedConcat(a[1..], b);
      var head := if IsAllowed(a[0]) then [a[0]] else [];
      calc {
        RemoveDisallowed(a + b);
        head + RemoveDisallowed(a[1..] + b);
        head + (RemoveDisallowed(a[1..]) + RemoveDisallowed(b));
        (head + RemoveDisallowed(a[1..])) + RemoveDisallowed(b);
      }
    } else {
      assert a + b == b;
    }
  }

  /** Text made only of allowed characters passes unchanged; text with none of them vanishes. */
  lemma {:induction false} RemoveDisallowedExtremes(s: string)
    ensures (forall k :: 0 <= k < |s| ==> IsAllowed(s[k])) ==> RemoveDisallowed(s) == s
    ensures (forall k :: 0 <= k < |s| ==> !IsAllowed(s[k])) ==> RemoveDisallowed(s) == []
  {
    if s != [] {
      RemoveDisallowedExtremes(s[1..]);
      if forall k :: 0 <= k < |s| ==> IsAllowed(s[k]) {
        assert forall k :: 0 <= k < |s| - 1 ==> IsAllowed(s[1..][k]) by {
          forall k | 0 <= k < |s| - 1 ensures IsAllowed(s[1..][k]) { assert s[1..][k] == s[k + 1]; }
        }
      }
      if forall k :: 0 <= k < |s| ==> !IsAllowed(s[k]) {
        assert forall k :: 0 <= k < |s| - 1 ==> !IsAllowed(s[1..][k]) by {
          forall k | 0 <= k < |s| - 1 ensures !IsAllowed(s[1..][k]) { assert s[1..][k] == s[k + 1]; }
        }
      }
    }
  }

  // ------------------------------------------------------------- collapse

  /**
    `re.sub(r"\s+", " ", text)`: each maximal whitespace run becomes one space.
    Read one character at a time: whitespace followed by more whitespace is
    dropped, and the last character of a run is written as a space.
  */
  function CollapseWhitespace(s: string): (r: string)
    ensures r == [] <==> s == []
    ensures r != [] && IsSpace(r[0]) <==> s != [] && IsSpace(s[0])
    ensures forall k :: 0 <= k < |r| && IsSpace(r[k]) ==> r[k] == ' '
    ensures forall k :: 0 <= k < |r| - 1 ==> !(IsSpace(r[k]) && IsSpace(r[k + 1]))
    decreases |s|
  {
    if s == [] then []
    else if IsSpace(s[0]) && |s| > 1 && IsSpace(s[1]) then CollapseWhitespace(s[1..])
    else [Render(s[0])] + CollapseWhitespace(s[1..])
  }

  /** How a character is written out by the collapse: whitespace as a plain space. */
  function Render(c: char): char {
    if IsSpace(c) then ' ' else c
  }

  /** The result ends in a space exactly when the text ends in whitespace. */
  lemma {:induction false} CollapseTrailing(s: string)
    ensures var r := CollapseWhitespace(s);
      r != [] && IsSpace(r[|r| - 1]) <==> s != [] && IsSpace(s[|s| - 1])
    decreases |s|
  {
    if s != [] {
      CollapseTrailing(s[1..]);
      if |s| > 1 {
        assert s[1..][|s| - 2] == s[|s| - 1];
      }
    }
  }

  /** A maximal run of whitespace, however long, becomes exactly one space. */
  lemma {:induction false} CollapseRun(w: string, rest: string)
    requires w != [] && AllSpace(w)
    requires rest == [] || !IsSpace(rest[0])
    ensures CollapseWhitespace(w + rest) == [' '] + CollapseWhitespace(rest)
    decreases |w|
  {
    assert (w + rest)[0] == w[0] && (w + rest)[1..] == w[1..] + rest;
    if |w| > 1 {
      assert (w + rest)[1] == w[1];
      assert AllSpace(w[1..]) by {
        forall k | 0 <= k < |w| - 1 ensures IsSpace(w[1..][k]) { assert w[1..][k] == w[k + 1]; }
      }
      CollapseRun(w[1..], rest);
    } else {
      assert w[1..] + rest == rest;
    }
  }

  /** Collapsing a text that starts with `c`, read off the definition. */
  lemma CollapseCons(c: char, y: string)
    ensures CollapseWhitespace([c] + y)
         == if IsSpace(c) && y != [] && IsSpace(y[0]) then CollapseWhitespace(y)
            else [Render(c)] + CollapseWhitespace(y)
  {
    assert ([c] + y)[0] == c && ([c] + y)[1..] == y;
    if y != [] {
      assert ([c] + y)[1] == y[0];
    }
  }

  /** Collapsing distributes over a concatenation that does not join two whitespace characters. */
  lemma {:induction false} CollapseSplit(a: string, b: string)
    requires a == [] || b == [] || !IsSpace(a[|a| - 1]) || !IsSpace(b[0])
    ensures CollapseWhitespace(a + b) == CollapseWhitespace(a) + CollapseWhitespace(b)
    decreases |a|, 1
  {
    if a == [] {
      assert a + b == b;
    } else if |a| > 1 && IsSpace(a[0]) && IsSpace(a[1]) {
      CollapseSplitDrop(a, b);
    } else {
      CollapseSplitKeep(a, b);
    }
  }

  /** CollapseSplit when `a` starts with two whitespace characters: the first is dropped. */
  lemma {:induction false} CollapseSplitDrop(a: string, b: string)
    requires |a| > 1 && IsSpace(a[0]) && IsSpace(a[1])
    requires b == [] || !IsSpace(a[|a| - 1]) || !IsSpace(b[0])
    ensures CollapseWhitespace(a + b) == CollapseWhitespace(a) + CollapseWhitespace(b)
    decreases |a|, 0
  {
    var t := a[1..];
    assert a == [a[0]] + t && a + b == [a[0]] + (t + b);
    assert t[0] == a[1] && (t + b)[0] == t[0];
    CollapseCons(a[0], t);
    CollapseCons(a[0], t + b);
    assert t[|t| - 1] == a[|a| - 1];
    CollapseSplit(t, b);
  }

  /** CollapseSplit when `a` starts with any other character: it is written out. */
  lemma {:induction false} CollapseSplitKeep(a: string, b: string)
    requires a != [] && !(|a| > 1 && IsSpace(a[0]) && IsSpace(a[1]))
    requires b == [] || !IsSpace(a[|a| - 1]) || !IsSpace(b[0])
    ensures CollapseWhitespace(a + b) == CollapseWhitespace(a) + CollapseWhitespace(b)
    decreases |a|, 0
  {
    var t := a[1..];
    assert a == [a[0]] + t && a + b == [a[0]] + (t + b);
    if t != [] {
      assert t[0] == a[1] && (t + b)[0] == t[0];
      assert t[|t| - 1] == a[|a| - 1];
    } else {
      assert t + b == b;
    }
    assert !(IsSpace(a[0]) && t != [] && IsSpace(t[0]));
    assert !(IsSpace(a[0]) && t + b != [] && IsSpace((t + b)[0]));
    var head, x, y := [Render(a[0])], CollapseWhitespace(t), CollapseWhitespace(b);
    assert CollapseWhitespace(a) == head + x by { CollapseCons(a[0], t); }
    assert CollapseWhitespace(a + b) == head + CollapseWhitespace(t + b) by { CollapseCons(a[0], t + b); }
    CollapseSplit(t, b);
    ConcatAssoc(head, x, y);
  }

  /** Only ASCII letters and whitespace. */
  predicate LettersAndSpace(s: string) {
    forall k :: 0 <= k < |s| ==> IsAsciiLetter(s[k]) || IsSpace(s[k])
  }

  /** Collapsing letters and whitespace leaves letters and plain spaces. */
  lemma {:induction false} CollapseLetters(s: string)
    requires LettersAndSpace(s)
    ensures forall k :: 0 <= k < |CollapseWhitespace(s)| ==> IsAsciiLetter(CollapseWhitespace(s)[k]) || CollapseWhitespace(s)[k] == ' '
    decreases |s|
  {
    if s != [] {
      assert LettersAndSpace(s[1..]) by {
        forall k | 0 <= k < |s| - 1 ensures IsAsciiLetter(s[1..][k]) || IsSpace(s[1..][k]) {
          assert s[1..][k] == s[k + 1];
        }
      }
      CollapseLetters(s[1..]);
    }
  }

  /** The characters of a text other than whitespace, in order. */
  function NonSpaceChars(s: string): string {
    if s == [] then [] else (if IsSpace(s[0]) then [] else [s[0]]) + NonSpaceChars(s[1..])
  }

  /** Collapsing changes only whitespace: every other character survives, in order. */
  lemma {:induction false} CollapseKeepsNonSpace(s: string)
    ensures NonSpaceChars(CollapseWhitespace(s)) == NonSpaceChars(s)
    decreases |s|
  {
    if s != [] {
      CollapseKeepsNonSpace(s[1..]);
      if !(IsSpace(s[0]) && |s| > 1 && IsSpace(s[1])) {
        assert ([Render(s[0])] + CollapseWhitespace(s[1..]))[1..] == CollapseWhitespace(s[1..]);
      }
    }
  }

  // ---------------------------------------------------------------- lower

  function LowerChar(c: char): char {
    if IsAsciiUpper(c) then (c as int + 32) as char else c
  }

  /** The capital of an ASCII lowercase letter; every other character is its own. */
  function UpperChar(c: char): char {
    if IsAsciiLower(c) then (c as int - 32) as char else c
  }

  /**
    `text.lower()` on text whose letters are ASCII: no capital is left, and
    each character agrees with the original up to case.
  */
  function AsciiLower(s: string): (r: string)
    ensures |r| == |s| && forall k :: 0 <= k < |r| ==> !IsAsciiUpper(r[k])
    ensures forall k :: 0 <= k < |s| ==> UpperChar(r[k]) == UpperChar(s[k])
  {
    seq(|s|, k requires 0 <= k < |s| => LowerChar(s[k]))
  }

  /** Those two facts fix the result: any text meeting them is `AsciiLower(s)`. */
  lemma AsciiLowerUnique(s: string, r: string)
    requires |r| == |s|
    requires forall k :: 0 <= k < |r| ==> !IsAsciiUpper(r[k])
    requires forall k :: 0 <= k < |s| ==> UpperChar(r[k]) == UpperChar(s[k])
    ensures r == AsciiLower(s)
  {
    var l := AsciiLower(s);
    forall k | 0 <= k < |s| ensures r[k] == l[k] {
      assert UpperChar(r[k]) == UpperChar(l[k]);
    }
  }

  // -------------------------------------------------------------- numbers

  /** The length of the run of ASCII digits at the start of `s`. */
  function DigitRunLength(s: string): (n: nat)
    ensures n <= |s|
    ensures forall k :: 0 <= k < n ==> IsAsciiDigit(s[k])
    ensures n < |s| ==> !IsAsciiDigit(s[n])
  {
    if s != [] && IsAsciiDigit(s[0]) then 1 + DigitRunLength(s[1..]) else 0
  }

  /** `normalize_numbers(text)`: every maximal run of digits becomes `num2words(int(run))`. */
  function NormalizeNumbers(numWords: nat -> string, s: string): string
    decreases |s|
  {
    if s == [] then []
    else if IsAsciiDigit(s[0]) then
      var n := DigitRunLength(s);
      numWords(DecimalValue(s[..n])) + NormalizeNumbers(numWords, s[n..])
    else [s[0]] + NormalizeNumbers(numWords, s[1..])
  }

  predicate DigitFree(s: string) {
    forall k :: 0 <= k < |s| ==> !IsAsciiDigit(s[k])
  }

  /** Text without digits is left exactly as it is. */
  lemma {:induction false} NormalizeDigitFree(numWords: nat -> string, s: string)
    requires DigitFree(s)
    ensures NormalizeNumbers(numWords, s) == s
  {
    if s != [] {
      assert DigitFree(s[1..]) by {
        forall k | 0 <= k < |s| - 1 ensures !IsAsciiDigit(s[1..][k]) { assert s[1..][k] == s[k + 1]; }
      }
      NormalizeDigitFree(numWords, s[1..]);
    }
  }

  /** A run followed by a non-digit is measured exactly. */
  lemma {:induction false} DigitRunOfConcat(d: string, rest: string)
    requires AllDigits(d)
    requires rest == [] || !IsAsciiDigit(rest[0])
    ensures DigitRunLength(d + rest) == |d|
  {
    if d != [] {
      assert (d + rest)[0] == d[0] && (d + rest)[1..] == d[1..] + rest;
      assert AllDigits(d[1..]) by {
        forall k | 0 <= k < |d| - 1 ensures IsAsciiDigit(d[1..][k]) { assert d[1..][k] == d[k + 1]; }
      }
      DigitRunOfConcat(d[1..], rest);
    } else {
      assert d + rest == rest;
    }
  }

  /** A maximal run of digits is replaced by the words for its value, and the rest follows. */
  lemma NormalizeRun(numWords: nat -> string, d: string, rest: string)
    requires d != [] && AllDigits(d)
    requires rest == [] || !IsAsciiDigit(rest[0])
    ensures NormalizeNumbers(numWords, d + rest) == numWords(DecimalValue(d)) + NormalizeNumbers(numWords, rest)
  {
    DigitRunOfConcat(d, rest);
    var s := d + rest;
    assert s[0] == d[0];
    assert s[..|d|] == d && s[|d|..] == rest;
  }

  /** The run at the start of `a + b` is `a`'s own run when that run ends inside `a`. */
  lemma {:induction false} DigitRunInPrefix(a: string, b: string)
    requires DigitRunLength(a) < |a|
    ensures DigitRunLength(a + b) == DigitRunLength(a)
  {
    if a != [] && IsAsciiDigit(a[0]) {
      assert (a + b)[0] == a[0] && (a + b)[1..] == a[1..] + b;
      DigitRunInPrefix(a[1..], b);
    } else {
      assert (a + b)[0] == a[0];
    }
  }

  /** A character that is not a digit passes through, in front of `a` alone or of `a + b`. */
  lemma NormalizePlainStep(numWords: nat -> string, a: string, b: string)
    requires a != [] && !IsAsciiDigit(a[0])
    ensures NormalizeNumbers(numWords, a) == [a[0]] + NormalizeNumbers(numWords, a[1..])
    ensures NormalizeNumbers(numWords, a + b) == [a[0]] + NormalizeNumbers(numWords, a[1..] + b)
  {
    assert (a + b)[0] == a[0] && (a + b)[1..] == a[1..] + b;
  }

  /** A run that ends inside `a` is replaced the same way in front of `a` alone or of `a + b`. */
  lemma NormalizeRunStep(numWords: nat -> string, a: string, b: string)
    requires a != [] && IsAsciiDigit(a[0]) && DigitRunLength(a) < |a|
    ensures var n := DigitRunLength(a);
      && NormalizeNumbers(numWords, a) == numWords(DecimalValue(a[..n])) + NormalizeNumbers(numWords, a[n..])
      && NormalizeNumbers(numWords, a + b) == numWords(DecimalValue(a[..n])) + NormalizeNumbers(numWords, a[n..] + b)
  {
    var n := DigitRunLength(a);
    DigitRunInPrefix(a, b);
    assert (a + b)[0] == a[0];
    assert (a + b)[..n] == a[..n] && (a + b)[n..] == a[n..] + b;
  }

  /**
    Normalising works piecewise: it distributes over a concatenation that does
    not split a run of digits.
  */
  lemma {:induction false} NormalizeSplit(numWords: nat -> string, a: string, b: string)
    requires a == [] || b == [] || !IsAsciiDigit(a[|a| - 1]) || !IsAsciiDigit(b[0])
    ensures NormalizeNumbers(numWords, a + b) == NormalizeNumbers(numWords, a) + NormalizeNumbers(numWords, b)
    decreases |a|, 1
  {
    if a == [] {
      assert a + b == b;
    } else if b == [] {
      assert a + b == a;
      assert NormalizeNumbers(numWords, b) == [];
    } else if !IsAsciiDigit(a[0]) {
      NormalizeSplitPlain(numWords, a, b);
    } else if DigitRunLength(a) < |a| {
      NormalizeSplitRun(numWords, a, b);
    } else {
      assert AllDigits(a);
      NormalizeRun(numWords, a, b);
      NormalizeRun(numWords, a, []);
      assert a + [] == a;
    }
  }

  /** NormalizeSplit when `a` starts with a character that is not a digit. */
  lemma {:induction false} NormalizeSplitPlain(numWords: nat -> string, a: string, b: string)
    requires a != [] && !IsAsciiDigit(a[0])
    requires b == [] || !IsAsciiDigit(a[|a| - 1]) || !IsAsciiDigit(b[0])
    ensures NormalizeNumbers(numWords, a + b) == NormalizeNumbers(numWords, a) + NormalizeNumbers(numWords, b)
    decreases |a|, 0
  {
    NormalizePlainStep(numWords, a, b);
    NormalizeSplit(numWords, a[1..], b);
    var head, x, y := [a[0]], NormalizeNumbers(numWords, a[1..]), NormalizeNumbers(numWords, b);
    assert head + (x + y) == (head + x) + y;
  }

  /** NormalizeSplit when `a` starts with a run of digits that ends inside it. */
  lemma {:induction false} NormalizeSplitRun(numWords: nat -> string, a: string, b: string)
    requires a != [] && IsAsciiDigit(a[0]) && DigitRunLength(a) < |a|
    requires b == [] || !IsAsciiDigit(a[|a| - 1]) || !IsAsciiDigit(b[0])
    ensures NormalizeNumbers(numWords, a + b) == NormalizeNumbers(numWords, a) + NormalizeNumbers(numWords, b)
    decreases |a|, 0
  {
    var n := DigitRunLength(a);
    NormalizeRunStep(numWords, a, b);
    assert a[n..][|a[n..]| - 1] == a[|a| - 1];
    NormalizeSplit(numWords, a[n..], b);
    var head, x, y := numWords(DecimalValue(a[..n])), NormalizeNumbers(numWords, a[n..]), NormalizeNumbers(numWords, b);
    assert head + (x + y) == (head + x) + y;
  }

  // ---------------------------------------------------------------- clean

  /** `clean_text_for_tts(text)` */
  function CleanTextForTts(numWords: nat -> string, text: string): (r: string)
    ensures r == [] || (!IsSpace(r[0]) && !IsSpace(r[|r| - 1]))
  {
    Strip(NormalizeNumbers(numWords, AsciiLower(CollapseWhitespace(RemoveDisallowed(text)))))
  }

  /**
    The cleaned text is already stripped, so the handler's own `text.strip()`
    is empty exactly when the cleaned text is.
  */
  lemma CleanIsStripped(numWords: nat -> string, text: string)
    ensures Strip(CleanTextForTts(numWords, text)) == CleanTextForTts(numWords, text)
  {
    StripStripped(CleanTextForTts(numWords, text));
  }

  /** Lowercase ASCII letters and single spaces between them. */
  predicate SpokenText(s: string) {
    && (forall k :: 0 <= k < |s| ==> IsAsciiLower(s[k]) || s[k] == ' ')
    && (forall k :: 0 <= k < |s| - 1 ==> !(s[k] == ' ' && s[k + 1] == ' '))
    && (s == [] || (s[0] != ' ' && s[|s| - 1] != ' '))
  }

  /**
    Text without ASCII digits cleans to lowercase ASCII letters separated by
    single spaces, with no space at either end.
  */
  lemma CleanDigitFree(numWords: nat -> string, text: string)
    requires DigitFree(text)
    ensures SpokenText(CleanTextForTts(numWords, text))
  {
    var filtered := RemoveDisallowed(text);
    FilterDigitFree(text);
    var collapsed := CollapseWhitespace(filtered);
    CollapseLetters(filtered);
    assert forall k :: 0 <= k < |collapsed| ==> IsAsciiLetter(collapsed[k]) || collapsed[k] == ' ';
    assert forall k :: 0 <= k < |collapsed| - 1 ==> !(IsSpace(collapsed[k]) && IsSpace(collapsed[k + 1]));
    var lowered := AsciiLower(collapsed);
    LowerSpoken(collapsed);
    NormalizeDigitFree(numWords, lowered);
    assert CleanTextForTts(numWords, text) == Strip(lowered);
    StripSpoken(lowered);
  }

  lemma FilterDigitFree(text: string)
    requires DigitFree(text)
    ensures LettersAndSpace(RemoveDisallowed(text))
  {
    var filtered := RemoveDisallowed(text);
    forall k | 0 <= k < |filtered| ensures IsAsciiLetter(filtered[k]) || IsSpace(filtered[k]) {
      var j :| 0 <= j < |text| && text[j] == filtered[k];
    }
  }

  lemma LowerSpoken(s: string)
    requires forall k :: 0 <= k < |s| ==> IsAsciiLetter(s[k]) || s[k] == ' '
    requires forall k :: 0 <= k < |s| - 1 ==> !(IsSpace(s[k]) && IsSpace(s[k + 1]))
    ensures var r := AsciiLower(s);
      && (forall k :: 0 <= k < |r| ==> IsAsciiLower(r[k]) || r[k] == ' ')
      && (forall k :: 0 <= k < |r| - 1 ==> !(r[k] == ' ' && r[k + 1] == ' '))
      && DigitFree(r)
  {
  }

  lemma StripSpoken(s: string)
    requires forall k :: 0 <= k < |s| ==> IsAsciiLower(s[k]) || s[k] == ' '
    requires forall k :: 0 <= k < |s| - 1 ==> !(s[k] == ' ' && s[k + 1] == ' ')
    ensures SpokenText(Strip(s))
  {
    var i, j := StripSlice(s);
    SpacedSlice(s, i, j);
    assert IsSpace(' ');
  }

  /** A slice of lowercase letters and single spaces is still made of them. */
  lemma SpacedSlice(s: string, i: nat, j: nat)
    requires i <= j <= |s|
    requires forall k :: 0 <= k < |s| ==> IsAsciiLower(s[k]) || s[k] == ' '
    requires forall k :: 0 <= k < |s| - 1 ==> !(s[k] == ' ' && s[k + 1] == ' ')
    ensures forall k :: 0 <= k < j - i ==> IsAsciiLower(s[i..j][k]) || s[i..j][k] == ' '
    ensures forall k :: 0 <= k < j - i - 1 ==> !(s[i..j][k] == ' ' && s[i..j][k + 1] == ' ')
  {
    forall k | 0 <= k < j - i ensures IsAsciiLower(s[i..j][k]) || s[i..j][k] == ' ' {
      assert s[i..j][k] == s[i + k];
    }
    forall k | 0 <= k < j - i - 1 ensures !(s[i..j][k] == ' ' && s[i..j][k + 1] == ' ') {
      assert s[i..j][k] == s[i + k] && s[i..j][k + 1] == s[i + k + 1];
    }
  }

  /** Text with no letter, digit or whitespace (only punctuation, say) cleans to nothing. */
  lemma CleanPunctuationOnly(numWords: nat -> string, text: string)
    requires forall k :: 0 <= k < |text| ==> !IsAllowed(text[k])
    ensures CleanTextForTts(numWords, text) == ""
  {
    RemoveDisallowedExtremes(text);
  }

  // ------------------------------------------------------ request checks

  const DEFAULT_CORRELATION_ID: string := "unknown"
  const DEFAULT_VOICE_DESCRIPTION: string :=
    "Jon's voice is monotone yet slightly fast in delivery, with a very close recording that almost has no background noise.The recording is of very high quality, with the speaker's voice sounding clear and professional."

  /** What `/synthesize` decides before it runs the model. */
  datatype SynthesisCheck =
    | Refused(status: int, detail: string)
    | Synthesize(text: string, correlationId: Value, voiceDescription: Value)

  /**
    The checks of `synthesize_speech`: the text is cleaned first (a text
    that is not a string makes the cleaning raise, which is answered 500 with
    the exception's text, `typeError`), an empty cleaned text is refused with
    400, and only then is a missing model refused with 503.
  */
  function CheckSynthesisRequest(numWords: nat -> string, typeError: Value -> string,
                                 request: Body, modelLoaded: bool): (r: SynthesisCheck)
    ensures r.Synthesize? ==> modelLoaded && r.text != ""
  {
    var raw := Get(request, "text", Str(""));
    if !raw.Str? then Refused(500, "TTS generation failed: " + typeError(raw))
    else
      var text := CleanTextForTts(numWords, raw.s);
      var correlationId := Get(request, "correlation_id", Str(DEFAULT_CORRELATION_ID));
      var voiceDescription := Get(request, "voice_description", Str(DEFAULT_VOICE_DESCRIPTION));
      if Strip(text) == "" then Refused(400, "text is required")
      else if !modelLoaded then Refused(503, "TTS model not available")
      else Synthesize(text, correlationId, voiceDescription)
  }

  /** An empty cleaned text is refused with 400 whether or not the model is loaded. */
  lemma EmptyTextBeforeModel(numWords: nat -> string, typeError: Value -> string, request: Body, modelLoaded: bool)
    requires "text" !in request || (request["text"].Str? && CleanTextForTts(numWords, request["text"].s) == "")
    ensures CheckSynthesisRequest(numWords, typeError, request, modelLoaded) == Refused(400, "text is required")
  {
  }

  /** Punctuation alone is refused as a missing text. */
  lemma PunctuationRefused(numWords: nat -> string, typeError: Value -> string, request: Body, modelLoaded: bool)
    requires "text" in request && request["text"].Str?
    requires forall k :: 0 <= k < |request["text"].s| ==> !IsAllowed(request["text"].s[k])
    ensures CheckSynthesisRequest(numWords, typeError, request, modelLoaded) == Refused(400, "text is required")
  {
    CleanPunctuationOnly(numWords, request["text"].s);
  }

  /**
    A request goes to the model exactly when its text is a string whose
    cleaned form is not blank and the model is loaded (the cleaned form is
    never blank without being empty, by CleanIsStripped).
  */
  lemma SynthesisGate(numWords: nat -> string, typeError: Value -> string, request: Body, modelLoaded: bool)
    ensures var raw := Get(request, "text", Str(""));
      CheckSynthesisRequest(numWords, typeError, request, modelLoaded).Synthesize?
      <==> raw.Str? && Strip(CleanTextForTts(numWords, raw.s)) != "" && modelLoaded
  {
  }

  /**
    What goes to the model: the cleaned text, and the request's correlation id
    and voice description or their defaults.
  */
  lemma SynthesizeCarries(numWords: nat -> string, typeError: Value -> string, request: Body, modelLoaded: bool)
    ensures var r := CheckSynthesisRequest(numWords, typeError, request, modelLoaded);
      r.Synthesize? ==>
        && "text" in request && request["text"].Str?
        && r.text == CleanTextForTts(numWords, request["text"].s)
        && r.correlationId == Get(request, "correlation_id", Str("unknown"))
        && r.voiceDescription == Get(request, "voice_description", Str(DEFAULT_VOICE_DESCRIPTION))
  {
  }
}
