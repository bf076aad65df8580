/**
  The parts of Python's `str` behaviour the services rely on: whitespace as
  `str.isspace()` defines it, `strip()`, `join`, the last piece of `split`,
  `replace(pattern, "")`, and decimal rendering and parsing of integers.
*/
module Strings {

  /** `c.isspace()`; also what `\s` matches in a `str` pattern and what `strip()` removes. */
  predicate IsSpace(c: char) {
    var n := c as int;
    || n == 0x20 || 0x09 <= n <= 0x0D || 0x1C <= n <= 0x1F || n == 0x85 || n == 0xA0
    || n == 0x1680 || 0x2000 <= n <= 0x200A || n == 0x2028 || n == 0x2029
    || n == 0x202F || n == 0x205F || n == 0x3000
  }

  predicate IsAsciiDigit(c: char) { '0' <= c <= '9' }
  predicate IsAsciiUpper(c: char) { 'A' <= c <= 'Z' }
  predicate IsAsciiLower(c: char) { 'a' <= c <= 'z' }
  predicate IsAsciiLetter(c: char) { IsAsciiUpper(c) || IsAsciiLower(c) }

  predicate AllSpace(s: string) { forall k :: 0 <= k < |s| ==> IsSpace(s[k]) }
  predicate AllDigits(s: string) { forall k :: 0 <= k < |s| ==> IsAsciiDigit(s[k]) }

  predicate StartsWith(s: string, prefix: string) {
    |prefix| <= |s| && s[..|prefix|] == prefix
  }

  predicate EndsWith(s: string, suffix: string) {
    |suffix| <= |s| && s[|s| - |suffix|..] == suffix
  }

  lemma ConcatAssoc(h: string, x: string, y: string)
    ensures h + (x + y) == (h + x) + y
  {
  }

  // ---------------------------------------------------------------- strip

  function TrimStart(s: string): (r: string)
    ensures |r| <= |s| && r == s[|s| - |r|..]
    ensures r == [] || !IsSpace(r[0])
    ensures AllSpace(s[..|s| - |r|])
  {
    if s != [] && IsSpace(s[0]) then TrimStart(s[1..]) else s
  }

  function TrimEnd(s: string): (r: string)
    ensures |r| <= |s| && r == s[..|r|]
    ensures r == [] || !IsSpace(r[|r| - 1])
    ensures AllSpace(s[|r|..])
  {
    if s != [] && IsSpace(s[|s| - 1]) then
      var r := TrimEnd(s[..|s| - 1]);
      assert s[|r|..] == s[..|s| - 1][|r|..] + [s[|s| - 1]];
      r
    else s
  }

  /** `s.strip()` */
  function Strip(s: string): (r: string)
    ensures r == [] || (!IsSpace(r[0]) && !IsSpace(r[|r| - 1]))
  {
    TrimEnd(TrimStart(s))
  }

  /** `strip()` keeps one contiguous slice of its input and drops only whitespace around it. */
  lemma StripSlice(s: string) returns (i: nat, j: nat)
    ensures i <= j <= |s| && Strip(s) == s[i..j]
    ensures AllSpace(s[..i]) && AllSpace(s[j..])
  {
    var t := TrimStart(s);
    i := |s| - |t|;
    j := i + |TrimEnd(t)|;
    assert t == s[i..];
    assert TrimEnd(t) == t[..j - i] == s[i..j];
    assert t[j - i..] == s[j..];
  }

  /** A string strips to nothing exactly when it is all whitespace. */
  lemma StripEmptyIffBlank(s: string)
    ensures Strip(s) == "" <==> AllSpace(s)
  {
    var i, j := StripSlice(s);
    if Strip(s) == "" {
      assert i == j;
      forall k | 0 <= k < |s| ensures IsSpace(s[k]) {
        if k < i { assert s[k] == s[..i][k]; } else { assert s[k] == s[j..][k - j]; }
      }
    } else {
      assert !IsSpace(s[i]) by { assert Strip(s)[0] == s[i]; }
    }
  }

  /** Stripping text that neither starts nor ends with whitespace changes nothing. */
  lemma StripStripped(s: string)
    requires s == [] || (!IsSpace(s[0]) && !IsSpace(s[|s| - 1]))
    ensures Strip(s) == s
  {
    assert TrimStart(s) == s;
  }

  // ----------------------------------------------------------- join/split

  /** `sep.join(parts)` */
  function Join(parts: seq<string>, sep: string): string {
    if |parts| == 0 then ""
    else if |parts| == 1 then parts[0]
    else parts[0] + sep + Join(parts[1..], sep)
  }

  /**
    `s.split(sep)[-1]`: separators are found left to right without overlap, as
    Python does; `piece` is what was read since the last separator.
  */
  function LastPieceFrom(s: string, sep: string, piece: string): string
    requires sep != ""
    decreases |s|
  {
    if s == [] then piece
    else if StartsWith(s, sep) then LastPieceFrom(s[|sep|..], sep, "")
    else LastPieceFrom(s[1..], sep, piece + [s[0]])
  }

  function LastSplitPiece(s: string, sep: string): string
    requires sep != ""
  {
    LastPieceFrom(s, sep, "")
  }

  /** Text without the separator's first character is read through unchanged. */
  lemma {:induction false} ScanPlain(a: string, rest: string, sep: string, piece: string)
    requires sep != ""
    requires forall k :: 0 <= k < |a| ==> a[k] != sep[0]
    ensures LastPieceFrom(a + rest, sep, piece) == LastPieceFrom(rest, sep, piece + a)
  {
    if a == [] {
      assert a + rest == rest && piece + a == piece;
    } else {
      var s := a + rest;
      assert s[0] == a[0];
      assert !StartsWith(s, sep) by {
        assert |sep| <= |s| ==> s[..|sep|][0] == s[0];
      }
      assert s[1..] == a[1..] + rest;
      ScanPlain(a[1..], rest, sep, piece + [a[0]]);
      assert piece + [a[0]] + a[1..] == piece + a;
    }
  }

  lemma {:induction false} LastPieceFromJoin(parts: seq<string>, sep: string, piece: string)
    requires parts != [] && sep != ""
    requires forall i, k :: 0 <= i < |parts| && 0 <= k < |parts[i]| ==> parts[i][k] != sep[0]
    ensures LastPieceFrom(Join(parts, sep), sep, piece)
         == if |parts| == 1 then piece + parts[0] else parts[|parts| - 1]
  {
    if |parts| == 1 {
      ScanPlain(parts[0], "", sep, piece);
      assert parts[0] + "" == parts[0];
    } else {
      var tail := Join(parts[1..], sep);
      assert Join(parts, sep) == parts[0] + (sep + tail);
      ScanPlain(parts[0], sep + tail, sep, piece);
      var s := sep + tail;
      assert StartsWith(s, sep) && s[|sep|..] == tail;
      assert forall i, k :: 0 <= i < |parts| - 1 && 0 <= k < |parts[1..][i]| ==> parts[1..][i][k] != sep[0] by {
        forall i, k | 0 <= i < |parts| - 1 && 0 <= k < |parts[1..][i]| ensures parts[1..][i][k] != sep[0] {
          assert parts[1..][i] == parts[i + 1];
        }
      }
      LastPieceFromJoin(parts[1..], sep, "");
      assert parts[1..][|parts| - 2] == parts[|parts| - 1];
      assert "" + parts[1] == parts[1];
    }
  }

  /**
    Splitting a joined path on its separator and taking the last piece gives
    back the last segment, provided no segment contains the separator's first
    character.
  */
  lemma LastSplitPieceOfJoin(parts: seq<string>, sep: string)
    requires parts != [] && sep != ""
    requires forall i, k :: 0 <= i < |parts| && 0 <= k < |parts[i]| ==> parts[i][k] != sep[0]
    ensures LastSplitPiece(Join(parts, sep), sep) == parts[|parts| - 1]
  {
    LastPieceFromJoin(parts, sep, "");
    assert "" + parts[0] == parts[0];
  }

  /** `s.replace(pattern, "")`: occurrences are removed left to right without overlap. */
  function RemoveAll(s: string, pattern: string): string
    requires pattern != ""
    decreases |s|
  {
    if s == [] then []
    else if StartsWith(s, pattern) then RemoveAll(s[|pattern|..], pattern)
    else [s[0]] + RemoveAll(s[1..], pattern)
  }

  // -------------------------------------------------------------- decimal

  function DigitValue(c: char): nat
    requires IsAsciiDigit(c)
  {
    c as int - '0' as int
  }

  function DigitChar(d: nat): (c: char)
    requires d < 10
    ensures IsAsciiDigit(c) && DigitValue(c) == d
  {
    ('0' as int + d) as char
  }

  /** `int(s)` for a run of ASCII digits (leading zeros allowed). */
  function DecimalValue(s: string): nat
    requires AllDigits(s)
  {
    if s == [] then 0 else 10 * DecimalValue(s[..|s| - 1]) + DigitValue(s[|s| - 1])
  }

  /** `str(n)` for a natural number. */
  function NatToDecimal(n: nat): string
    decreases n
  {
    if n < 10 then [DigitChar(n)] else NatToDecimal(n / 10) + [DigitChar(n % 10)]
  }

  /** `str(i)` for an integer. */
  function IntToDecimal(i: int): string {
    if i < 0 then "-" + NatToDecimal(-i) else NatToDecimal(i)
  }

  /** `int(str(n)) == n`: rendering a natural number and reading it back is the identity. */
  lemma {:induction false} DecimalRoundTrip(n: nat)
    ensures NatToDecimal(n) != [] && AllDigits(NatToDecimal(n))
    ensures DecimalValue(NatToDecimal(n)) == n
  {
    if n >= 10 {
      DecimalRoundTrip(n / 10);
      var front := NatToDecimal(n / 10);
      var s := front + [DigitChar(n % 10)];
      assert s[..|s| - 1] == front;
    }
  }
}
