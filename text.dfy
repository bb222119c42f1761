/**
 * The str methods the core calls — isalnum, lower, strip, replace, title —
 * restricted to ASCII.
 */
module Text {

  predicate IsUpper(c: char) { 'A' <= c <= 'Z' }

  predicate IsLower(c: char) { 'a' <= c <= 'z' }

  predicate IsDigit(c: char) { '0' <= c <= '9' }

  /** A cased letter, in the sense of `str.title`. */
  predicate IsLetter(c: char) { IsUpper(c) || IsLower(c) }

  /** `c.isalnum()`. */
  predicate IsAlnum(c: char) { IsLetter(c) || IsDigit(c) }

  /** `c.isspace()` on ASCII: space, tab, line feed, carriage return, vertical tab, form feed and the four separators 0x1C-0x1F. */
  predicate IsSpace(c: char)
  {
    c == ' ' || c == '\t' || c == '\n' || c == '\r' || c == '\U{B}' || c == '\U{C}' || ('\U{1C}' <= c <= '\U{1F}')
  }

  function ToLower(c: char): char
  {
    if IsUpper(c) then (c as int - 'A' as int + 'a' as int) as char else c
  }

  function ToUpper(c: char): char
  {
    if IsLower(c) then (c as int - 'a' as int + 'A' as int) as char else c
  }

  /** `s.lower()`. */
  function Lower(s: string): (r: string)
    ensures |r| == |s|
    ensures forall i :: 0 <= i < |s| ==> r[i] == ToLower(s[i])
  {
    if s == [] then [] else [ToLower(s[0])] + Lower(s[1..])
  }

  /** Lower-casing twice is lower-casing once. */
  lemma {:induction false} LowerIdempotent(s: string)
    ensures Lower(Lower(s)) == Lower(s)
  {
    if s != [] {
      LowerIdempotent(s[1..]);
      assert Lower(s)[1..] == Lower(s[1..]);
    }
  }

  /** `s.replace(a, b)` for single characters. */
  function ReplaceChar(s: string, a: char, b: char): (r: string)
    ensures |r| == |s|
    ensures forall i :: 0 <= i < |s| ==> r[i] == (if s[i] == a then b else s[i])
  {
    if s == [] then [] else [if s[0] == a then b else s[0]] + ReplaceChar(s[1..], a, b)
  }

  /** `s.lstrip()`. */
  function StripLeft(s: string): (r: string)
    ensures |r| <= |s| && r == s[|s| - |r|..]
    ensures r == [] || !IsSpace(r[0])
  {
    if s != [] && IsSpace(s[0]) then StripLeft(s[1..]) else s
  }

  /** `s.rstrip()`. */
  function StripRight(s: string): (r: string)
    ensures |r| <= |s| && r == s[..|r|]
    ensures r == [] || !IsSpace(r[|r| - 1])
  {
    if s != [] && IsSpace(s[|s| - 1]) then StripRight(s[..|s| - 1]) else s
  }

  /** `s.strip()`. */
  function Strip(s: string): string
  {
    StripRight(StripLeft(s))
  }

  /** A text without white space is its own `strip()`. */
  lemma StripNoSpace(s: string)
    requires forall i :: 0 <= i < |s| ==> !IsSpace(s[i])
    ensures Strip(s) == s
  {
  }

  /**
   * `s.title()` with `prevCased` saying whether the character before `s` was
   * a cased letter: a letter is upper-cased when it starts a run of letters
   * and lower-cased otherwise; other characters stay.
   */
  function TitleFrom(s: string, prevCased: bool): (r: string)
    ensures |r| == |s|
  {
    if s == [] then []
    else
      var c := s[0];
      [if !IsLetter(c) then c else if prevCased then ToLower(c) else ToUpper(c)]
      + TitleFrom(s[1..], IsLetter(c))
  }

  /** `s.title()`. */
  function Title(s: string): string
  {
    TitleFrom(s, false)
  }

  /** Title-casing changes letter case only. */
  lemma {:induction false} TitleKeepsLetters(s: string, prevCased: bool)
    ensures Lower(TitleFrom(s, prevCased)) == Lower(s)
  {
    if s != [] {
      TitleKeepsLetters(s[1..], IsLetter(s[0]));
    }
  }

  /** Title-casing is the identity on a word already in title case. */
  lemma {:induction false} TitleOfTitled(s: string, prevCased: bool)
    ensures TitleFrom(TitleFrom(s, prevCased), prevCased) == TitleFrom(s, prevCased)
  {
    if s != [] {
      var c := s[0];
      var d := if !IsLetter(c) then c else if prevCased then ToLower(c) else ToUpper(c);
      assert IsLetter(d) == IsLetter(c);
      TitleOfTitled(s[1..], IsLetter(c));
      assert TitleFrom(s, prevCased)[1..] == TitleFrom(s[1..], IsLetter(c));
    }
  }
}
