/** String primitives of JavaScript that the core relies on, restricted to what the
    model needs: ASCII case mapping, the `\s` whitespace class, `trim`,
    `split(/\s+/)`, `includes` and decimal rendering of a natural number. */
module Text {

  predicate IsAsciiLower(c: char) { 'a' <= c <= 'z' }
  predicate IsAsciiUpper(c: char) { 'A' <= c <= 'Z' }

  /** `toUpperCase` on one character, ASCII letters only. */
  function UpperChar(c: char): char {
    if IsAsciiLower(c) then (c as int - 32) as char else c
  }

  /** `toLowerCase` on one character, ASCII letters only. */
  function LowerChar(c: char): char {
    if IsAsciiUpper(c) then (c as int + 32) as char else c
  }

  function ToUpper(s: string): (r: string)
    ensures |r| == |s|
  {
    seq(|s|, i requires 0 <= i < |s| => UpperChar(s[i]))
  }

  function ToLower(s: string): (r: string)
    ensures |r| == |s|
  {
    seq(|s|, i requires 0 <= i < |s| => LowerChar(s[i]))
  }

  /** Upper-casing leaves no ASCII lower-case letter behind, turns each lower-case letter
      into the capital that lower-cases back to it, and changes nothing else. */
  lemma ToUpperSpec(s: string)
    ensures forall i :: 0 <= i < |s| ==> !IsAsciiLower(ToUpper(s)[i])
    ensures forall i :: 0 <= i < |s| && IsAsciiLower(s[i]) ==>
      IsAsciiUpper(ToUpper(s)[i]) && LowerChar(ToUpper(s)[i]) == s[i]
    ensures forall i :: 0 <= i < |s| && !IsAsciiLower(s[i]) ==> ToUpper(s)[i] == s[i]
  {
  }

  /** Lower-casing leaves no ASCII capital behind, turns each capital into the lower-case
      letter that upper-cases back to it, and changes nothing else. */
  lemma ToLowerSpec(s: string)
    ensures forall i :: 0 <= i < |s| ==> !IsAsciiUpper(ToLower(s)[i])
    ensures forall i :: 0 <= i < |s| && IsAsciiUpper(s[i]) ==>
      IsAsciiLower(ToLower(s)[i]) && UpperChar(ToLower(s)[i]) == s[i]
    ensures forall i :: 0 <= i < |s| && !IsAsciiUpper(s[i]) ==> ToLower(s)[i] == s[i]
  {
  }

  /** Case-insensitive comparison does not depend on an earlier case change. */
  lemma ToLowerAfterToUpper(s: string)
    ensures ToLower(ToUpper(s)) == ToLower(s)
  {
  }

  lemma ToUpperAfterToLower(s: string)
    ensures ToUpper(ToLower(s)) == ToUpper(s)
  {
  }

  lemma ToUpperIdempotent(s: string)
    ensures ToUpper(ToUpper(s)) == ToUpper(s)
  {
  }

  lemma ToLowerIdempotent(s: string)
    ensures ToLower(ToLower(s)) == ToLower(s)
  {
  }

  /** The characters JavaScript's `\s` and `String.prototype.trim` treat as white space:
      the ECMAScript WhiteSpace and LineTerminator characters. */
  predicate IsWhitespace(c: char) {
    c == '\t' || c == '\n' || c == '\U{000B}' || c == '\U{000C}' || c == '\r' || c == ' '
    || c == '\U{00A0}' || c == '\U{1680}' || ('\U{2000}' <= c <= '\U{200A}')
    || c == '\U{2028}' || c == '\U{2029}' || c == '\U{202F}' || c == '\U{205F}'
    || c == '\U{3000}' || c == '\U{FEFF}'
  }

  function TrimStart(s: string): (r: string)
    ensures |r| <= |s|
    ensures r == s[|s| - |r|..]
    ensures r != [] ==> !IsWhitespace(r[0])
  {
    if s != [] && IsWhitespace(s[0]) then TrimStart(s[1..]) else s
  }

  function TrimEnd(s: string): (r: string)
    ensures |r| <= |s|
    ensures r == s[..|r|]
    ensures r != [] ==> !IsWhitespace(r[|r| - 1])
  {
    if s != [] && IsWhitespace(s[|s| - 1]) then TrimEnd(s[..|s| - 1]) else s
  }

  /** `s.trim()`. */
  function Trim(s: string): (r: string)
    ensures r != [] ==> !IsWhitespace(r[0]) && !IsWhitespace(r[|r| - 1])
  {
    var t := TrimStart(s);
    var r := TrimEnd(t);
    assert r != [] ==> r[0] == t[0];
    r
  }

  /** `s.split(/\s+/)`: every maximal run of white space separates two fields, so a
      leading or trailing run yields an empty first or last field, and the empty
      string yields one empty field. */
  function SplitWs(s: string): (r: seq<string>)
    ensures |r| >= 1
    decreases |s|
  {
    if s == [] then [""]
    else if IsWhitespace(s[0]) then [""] + SplitWs(TrimStart(s[1..]))
    else
      var rest := SplitWs(s[1..]);
      [[s[0]] + rest[0]] + rest[1..]
  }

  /** Number of words of `s` (maximal runs of non-white-space characters), counted
      at each word's first character; `afterWs` says whether the character before
      `s` was white space (or `s` starts the text). */
  function WordStarts(s: string, afterWs: bool): nat {
    if s == [] then 0
    else (if !IsWhitespace(s[0]) && afterWs then 1 else 0) + WordStarts(s[1..], IsWhitespace(s[0]))
  }

  /** The number of whitespace-separated words of `s`, independent of trimming and splitting. */
  function Words(s: string): nat {
    WordStarts(s, true)
  }

  /** Number of maximal white-space runs of `s`; `afterWord` says whether the character
      before `s` was not white space (or `s` starts the text). */
  function RunStarts(s: string, afterWord: bool): nat {
    if s == [] then 0
    else (if IsWhitespace(s[0]) && afterWord then 1 else 0) + RunStarts(s[1..], !IsWhitespace(s[0]))
  }

  lemma {:induction false} RunStartsAfterTrim(u: string)
    ensures RunStarts(u, false) == RunStarts(TrimStart(u), true)
  {
    if u != [] {
      if IsWhitespace(u[0]) {
        RunStartsAfterTrim(u[1..]);
      }
    }
  }

  /** Splitting yields one field more than there are white-space runs. */
  lemma {:induction false} SplitWsLength(s: string)
    ensures |SplitWs(s)| == 1 + RunStarts(s, true)
    decreases |s|
  {
    if s != [] {
      if IsWhitespace(s[0]) {
        SplitWsLength(TrimStart(s[1..]));
        RunStartsAfterTrim(s[1..]);
      } else {
        SplitWsLength(s[1..]);
      }
    }
  }

  /** Whether `s`, read after a character whose white-space-ness is `afterWs`, ends in white space. */
  function EndsInWs(s: string, afterWs: bool): bool {
    if s == [] then afterWs else IsWhitespace(s[|s| - 1])
  }

  /** Words and white-space runs alternate: their counts differ only by how the text starts and ends. */
  lemma {:induction false} WordsAndRuns(u: string, p: bool)
    ensures WordStarts(u, p) as int
         == RunStarts(u, !p) as int + (if EndsInWs(u, p) then 0 else 1) - (if p then 0 else 1)
  {
    if u != [] {
      WordsAndRuns(u[1..], IsWhitespace(u[0]));
      assert EndsInWs(u, p) == EndsInWs(u[1..], IsWhitespace(u[0]));
    }
  }

  lemma {:induction false} WordStartsTrimStart(s: string)
    ensures WordStarts(TrimStart(s), true) == WordStarts(s, true)
  {
    if s != [] && IsWhitespace(s[0]) {
      WordStartsTrimStart(s[1..]);
    }
  }

  lemma {:induction false} WordStartsSnocWs(u: string, c: char, p: bool)
    requires IsWhitespace(c)
    ensures WordStarts(u + [c], p) == WordStarts(u, p)
  {
    if u == [] {
      assert [c][1..] == [];
    } else {
      assert (u + [c])[1..] == u[1..] + [c];
      WordStartsSnocWs(u[1..], c, IsWhitespace(u[0]));
    }
  }

  lemma {:induction false} WordStartsTrimEnd(s: string, p: bool)
    ensures WordStarts(TrimEnd(s), p) == WordStarts(s, p)
    decreases |s|
  {
    if s != [] && IsWhitespace(s[|s| - 1]) {
      var u := s[..|s| - 1];
      assert s == u + [s[|s| - 1]];
      WordStartsTrimEnd(u, p);
      WordStartsSnocWs(u, s[|s| - 1], p);
    }
  }

  lemma WordsOfTrim(s: string)
    ensures Words(Trim(s)) == Words(s)
  {
    WordStartsTrimStart(s);
    WordStartsTrimEnd(TrimStart(s), true);
  }

  lemma {:induction false} RunStartsFlagIrrelevant(t: string)
    requires t != [] && !IsWhitespace(t[0])
    ensures RunStarts(t, true) == RunStarts(t, false)
  {
  }

  /** `s.trim().split(/\s+/).length` is the number of words of `s`, or 1 when `s`
      is empty or holds only white space. */
  lemma FieldCountIsWordCount(s: string)
    ensures |SplitWs(Trim(s))| == if Words(s) == 0 then 1 else Words(s)
  {
    var t := Trim(s);
    WordsOfTrim(s);
    SplitWsLength(t);
    if t == [] {
      assert Words(t) == 0;
    } else {
      WordsAndRuns(t, true);
      RunStartsFlagIrrelevant(t);
    }
  }

  /** `haystack.includes(needle)`. */
  predicate OccursAt(haystack: string, needle: string, i: nat) {
    i + |needle| <= |haystack| && haystack[i..i + |needle|] == needle
  }

  predicate Includes(haystack: string, needle: string) {
    exists i: nat | i <= |haystack| :: OccursAt(haystack, needle, i)
  }

  lemma IncludesEmpty(haystack: string)
    ensures Includes(haystack, "")
  {
    assert OccursAt(haystack, "", 0);
  }

  function DigitChar(d: nat): char
    requires d < 10
  {
    "0123456789"[d]
  }

  /** Decimal rendering of a natural number, as template literals print it. */
  function NatToString(n: nat): (r: string)
    ensures |r| >= 1
    ensures forall i :: 0 <= i < |r| ==> '0' <= r[i] <= '9'
  {
    if n < 10 then [DigitChar(n)] else NatToString(n / 10) + [DigitChar(n % 10)]
  }

  /** Decimal rendering of an integer. */
  function IntToString(n: int): string {
    if n < 0 then "-" + NatToString(-n) else NatToString(n)
  }
}
