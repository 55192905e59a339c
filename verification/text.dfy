/**
 The string primitives the request handler relies on: Python's whitespace
 class and `str.strip()`, the ASCII digit class used for `str.isdigit()`, and
 `str.startswith`. Strings are sequences of Unicode scalar values, as Python
 `str` values are sequences of code points, so `|s|` is Python's `len(s)`.
 */
module Text {

  /** The 29 code points Python's `str.isspace()` accepts, listed one by
      one. */
  const SpaceTable: set<char> := {
    '\t', '\n', '\U{B}', '\U{C}', '\r', '\U{1C}', '\U{1D}', '\U{1E}', '\U{1F}', ' ',
    '\U{85}', '\U{A0}', '\U{1680}',
    '\U{2000}', '\U{2001}', '\U{2002}', '\U{2003}', '\U{2004}', '\U{2005}',
    '\U{2006}', '\U{2007}', '\U{2008}', '\U{2009}', '\U{200A}',
    '\U{2028}', '\U{2029}', '\U{202F}', '\U{205F}', '\U{3000}'}

  /** Python's `str.isspace()` on one character; `str.strip()` with no
      argument removes exactly these from both ends. U+001C..U+0020 is one
      contiguous run (the four separator controls and the space). */
  predicate IsSpace(c: char) {
    || ('\t' <= c <= '\r')
    || ('\U{1C}' <= c <= ' ')
    || c == '\U{85}'
    || c == '\U{A0}'
    || c == '\U{1680}'
    || ('\U{2000}' <= c <= '\U{200A}')
    || c == '\U{2028}'
    || c == '\U{2029}'
    || c == '\U{202F}'
    || c == '\U{205F}'
    || c == '\U{3000}'
  }

  /** The ranges of `IsSpace` cover exactly the code-point table. */
  lemma IsSpaceMatchesTable(c: char)
    ensures IsSpace(c) <==> c in SpaceTable
  {
  }

  /** Every character of `s` is whitespace (vacuously true of the empty string). */
  predicate AllSpace(s: string) {
    forall i :: 0 <= i < |s| ==> IsSpace(s[i])
  }

  /** A decimal digit. Python's `str.isdigit()` also accepts non-ASCII digits
      (Arabic-Indic, superscripts, ...); this model accepts only '0'..'9'. */
  predicate IsDigit(c: char) {
    '0' <= c <= '9'
  }

  /** The ten ASCII decimal digits. */
  const DigitChars: string := "0123456789"

  /** Python's `s.isdigit()` over the ASCII digits: false on the empty
      string, otherwise true iff every character is one of the ten digits. */
  function IsDigits(s: string): (ok: bool)
    ensures ok <==> |s| > 0 && forall i :: 0 <= i < |s| ==> s[i] in DigitChars
  {
    |s| > 0 && forall i :: 0 <= i < |s| ==> IsDigit(s[i])
  }

  /** Python's `s.startswith(prefix)`: `s` agrees with `prefix` at every
      position of `prefix`. */
  function StartsWith(s: string, prefix: string): (ok: bool)
    ensures ok <==> |prefix| <= |s| && forall i :: 0 <= i < |prefix| ==> s[i] == prefix[i]
  {
    |prefix| <= |s| && s[..|prefix|] == prefix
  }

  /** Python's `s.lstrip()`: the longest suffix of `s` that does not start
      with whitespace, everything removed being whitespace. */
  function TrimLeft(s: string): (r: string)
    ensures |r| <= |s| && r == s[|s| - |r|..]
    ensures AllSpace(s[..|s| - |r|])
    ensures r == [] || !IsSpace(r[0])
  {
    if |s| > 0 && IsSpace(s[0]) then
      var r := TrimLeft(s[1..]);
      assert s[..|s| - |r|] == [s[0]] + s[1..][..|s| - 1 - |r|];
      r
    else
      s
  }

  /** Python's `s.rstrip()`: the longest prefix of `s` that does not end
      with whitespace, everything removed being whitespace. */
  function TrimRight(s: string): (r: string)
    ensures |r| <= |s| && r == s[..|r|]
    ensures AllSpace(s[|r|..])
    ensures r == [] || !IsSpace(r[|r| - 1])
  {
    if |s| > 0 && IsSpace(s[|s| - 1]) then
      var r := TrimRight(s[..|s| - 1]);
      assert s[|r|..] == s[..|s| - 1][|r|..] + [s[|s| - 1]];
      r
    else
      s
  }

  /** Python's `s.strip()`: `s` with its leading and trailing whitespace
      removed. It is empty exactly when `s` is blank, and otherwise starts
      and ends with a non-space character. */
  function Strip(s: string): (r: string)
    ensures (r == []) <==> AllSpace(s)
    ensures r != [] ==> !IsSpace(r[0]) && !IsSpace(r[|r| - 1])
  {
    TrimRight(TrimLeft(s))
  }

  /** Where the result of `strip()` starts in `s`. `strip()` removes
      whitespace only: its result is the slice of `s` at this offset, with
      nothing but whitespace before and after it. */
  function StripStart(s: string): (a: nat)
    ensures a + |Strip(s)| <= |s|
    ensures Strip(s) == s[a..a + |Strip(s)|]
    ensures AllSpace(s[..a]) && AllSpace(s[a + |Strip(s)|..])
  {
    var t := TrimLeft(s);
    SliceOfSuffix(s, |s| - |t|, |TrimRight(t)|);
    |s| - |t|
  }

  /** Slicing the suffix `s[a..]` is slicing `s` at shifted offsets. */
  lemma SliceOfSuffix(s: string, a: nat, k: nat)
    requires a + k <= |s|
    ensures s[a..][..k] == s[a..a + k]
    ensures s[a..][k..] == s[a + k..]
  {
  }

  /** A string with no whitespace at either end is its own strip. */
  lemma StripUnpadded(s: string)
    requires s == [] || (!IsSpace(s[0]) && !IsSpace(s[|s| - 1]))
    ensures Strip(s) == s
  {
    assert TrimLeft(s) == s;
    assert TrimRight(s) == s;
  }

  /** A string that `strip()` changes has whitespace at one of its ends. */
  lemma StripChangesPadded(s: string)
    requires Strip(s) != s
    ensures |s| > 0 && (IsSpace(s[0]) || IsSpace(s[|s| - 1]))
  {
    if s == [] || (!IsSpace(s[0]) && !IsSpace(s[|s| - 1])) {
      StripUnpadded(s);
    }
  }

  /** Stripping twice is stripping once. */
  lemma StripIdempotent(s: string)
    ensures Strip(Strip(s)) == Strip(s)
  {
    StripUnpadded(Strip(s));
  }
}
