/**
 * The string operations the views, forms and diet generator rely on,
 * restricted to ASCII letters: lower/upper-casing, character replacement,
 * case-insensitive substring search, Python's str.title() and the last
 * piece of str.split(sep).
 */
module Text {

  predicate IsUpper(c: char) { 'A' <= c <= 'Z' }

  predicate IsLower(c: char) { 'a' <= c <= 'z' }

  /** A character that has a case; only ASCII letters are treated as cased here. */
  predicate IsCased(c: char) { IsUpper(c) || IsLower(c) }

  function ToLower(c: char): (r: char)
    ensures IsUpper(c) ==> IsLower(r)
    ensures !IsUpper(c) ==> r == c
  {
    if IsUpper(c) then (c as int + 32) as char else c
  }

  function ToUpper(c: char): (r: char)
    ensures IsLower(c) ==> IsUpper(r)
    ensures !IsLower(c) ==> r == c
  {
    if IsLower(c) then (c as int - 32) as char else c
  }

  /** ASCII lower-casing of a whole string. */
  function Lower(s: string): string
  {
    seq(|s|, i requires 0 <= i < |s| => ToLower(s[i]))
  }

  /** Python's s.replace(from, to) for single characters. */
  function ReplaceChar(s: string, from: char, to: char): string
  {
    seq(|s|, i requires 0 <= i < |s| => if s[i] == from then to else s[i])
  }

  /** `needle` occurs in `hay` starting at position `i`. */
  predicate OccursAt(needle: string, hay: string, i: int)
  {
    0 <= i && i + |needle| <= |hay| && hay[i..i + |needle|] == needle
  }

  /** `needle` is a substring of `hay`; the empty string is a substring of everything. */
  predicate Contains(hay: string, needle: string)
  {
    exists i | 0 <= i <= |hay| :: OccursAt(needle, hay, i)
  }

  /** A SQL `icontains` lookup: substring match after folding both sides to lower case. */
  predicate ContainsIgnoreCase(hay: string, needle: string)
  {
    Contains(Lower(hay), Lower(needle))
  }

  /** The middle part of a concatenation is contained in it. */
  lemma ContainsMiddle(a: string, b: string, c: string)
    ensures Contains(a + b + c, b)
  {
    var s := a + b + c;
    assert s[|a|..|a| + |b|] == b;
    assert OccursAt(b, s, |a|);
  }

  /**
   * Python's str.title(): a cased character is upper-cased when the character
   * before it is not cased (or it is the first one) and lower-cased otherwise.
   * `afterCased` says whether the character just before `s` was cased.
   */
  function TitleFrom(s: string, afterCased: bool): string
  {
    if s == [] then []
    else [if afterCased then ToLower(s[0]) else ToUpper(s[0])] + TitleFrom(s[1..], IsCased(s[0]))
  }

  function Title(s: string): string
  {
    TitleFrom(s, false)
  }

  lemma {:induction false} TitleFromAt(s: string, afterCased: bool, i: nat)
    requires i < |s|
    ensures |TitleFrom(s, afterCased)| == |s|
    ensures TitleFrom(s, afterCased)[i] ==
      if (if i == 0 then afterCased else IsCased(s[i - 1])) then ToLower(s[i]) else ToUpper(s[i])
  {
    if i > 0 {
      TitleFromAt(s[1..], IsCased(s[0]), i - 1);
    } else if |s| > 1 {
      TitleFromAt(s[1..], IsCased(s[0]), 0);
    }
  }

  /** Each character of Title(s) is decided by its own original and the one before it. */
  lemma TitleAt(s: string, i: nat)
    requires i < |s|
    ensures |Title(s)| == |s|
    ensures Title(s)[i] == if i > 0 && IsCased(s[i - 1]) then ToLower(s[i]) else ToUpper(s[i])
  {
    TitleFromAt(s, false, i);
  }

  /**
   * The last element of Python's s.split(sep): the text after the last `sep`,
   * or all of `s` when `sep` does not occur in it.
   */
  function AfterLast(s: string, sep: char): (r: string)
    ensures sep !in r
    ensures |r| <= |s| && r == s[|s| - |r|..]
    ensures |r| < |s| ==> s[|s| - |r| - 1] == sep
    ensures sep !in s ==> r == s
  {
    if s == [] then []
    else if s[|s| - 1] == sep then []
    else AfterLast(s[..|s| - 1], sep) + [s[|s| - 1]]
  }
}
