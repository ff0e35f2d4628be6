/**
 The Python `str` operations the stock-quote handler relies on: `split` on a
 one-character separator (with its inverse `join`), `isalpha` and `upper`.
 Characters are restricted to ASCII: a letter is `a`-`z` or `A`-`Z`, and only
 those are changed by `upper`.
 */
module Strings {

  // ---------------------------------------------------------------------------
  // split / join
  // ---------------------------------------------------------------------------

  /** Python's `sep.join(parts)` for a one-character separator. */
  function Join(parts: seq<string>, sep: char): string
  {
    if |parts| == 0 then ""
    else if |parts| == 1 then parts[0]
    else parts[0] + [sep] + Join(parts[1..], sep)
  }

  /** No part contains the separator. */
  predicate SepFree(parts: seq<string>, sep: char)
  {
    forall i :: 0 <= i < |parts| ==> sep !in parts[i]
  }

  /**
   Python's `s.split(sep)` for a one-character separator: the maximal
   separator-free pieces of `s`, in order. It never returns an empty list,
   and joining the pieces gives back `s`.
   */
  function Split(s: string, sep: char): (parts: seq<string>)
    ensures |parts| >= 1
    ensures SepFree(parts, sep)
    ensures Join(parts, sep) == s
    decreases |s|
  {
    if |s| == 0 then [""]
    else if s[0] == sep then
      var rest := Split(s[1..], sep);
      assert ([""] + rest)[1..] == rest;
      [""] + rest
    else
      var rest := Split(s[1..], sep);
      var parts := [[s[0]] + rest[0]] + rest[1..];
      assert parts[1..] == rest[1..];
      assert |rest| > 1 ==> Join(rest, sep) == rest[0] + [sep] + Join(rest[1..], sep);
      parts
  }

  /** Splitting a separator-free prefix off at the first separator. */
  lemma {:induction false} SplitAtFirst(p: string, rest: string, sep: char)
    requires sep !in p
    ensures Split(p + [sep] + rest, sep) == [p] + Split(rest, sep)
    decreases |p|
  {
    if |p| == 0 {
      assert p + [sep] + rest == [sep] + rest;
      assert ([sep] + rest)[1..] == rest;
    } else {
      var s := p + [sep] + rest;
      assert s[0] == p[0] && s[1..] == p[1..] + [sep] + rest;
      SplitAtFirst(p[1..], rest, sep);
      assert [p[0]] + p[1..] == p;
    }
  }

  /** A separator-free string splits into itself alone. */
  lemma {:induction false} SplitNoSep(p: string, sep: char)
    requires sep !in p
    ensures Split(p, sep) == [p]
    decreases |p|
  {
  }

  /** Round trip: splitting a join of separator-free pieces gives the pieces back. */
  lemma {:induction false} SplitOfJoin(parts: seq<string>, sep: char)
    requires |parts| >= 1
    requires SepFree(parts, sep)
    ensures Split(Join(parts, sep), sep) == parts
    decreases |parts|
  {
    if |parts| == 1 {
      SplitNoSep(parts[0], sep);
    } else {
      assert sep !in parts[0];
      SplitOfJoin(parts[1..], sep);
      SplitAtFirst(parts[0], Join(parts[1..], sep), sep);
      assert [parts[0]] + parts[1..] == parts;
    }
  }

  /**
   The first piece of `s.split(sep)` (Python's `s.split(sep)[0]`) is the text
   before the first separator: a separator-free prefix of `s` that is either
   all of `s` or followed by a separator.
   */
  lemma FirstPiece(s: string, sep: char)
    ensures var r := Split(s, sep)[0];
      && sep !in r
      && |r| <= |s| && s[..|r|] == r
      && (|r| == |s| || s[|r|] == sep)
  {
  }

  /**
   The last piece of `s.split(sep)` (Python's `s.split(sep)[-1]`) is the text
   after the last separator: a separator-free suffix of `s` that is either all
   of `s` or preceded by a separator.
   */
  lemma LastPiece(s: string, sep: char)
    ensures var parts := Split(s, sep);
      var r := parts[|parts| - 1];
      && sep !in r
      && |r| <= |s| && s[|s| - |r|..] == r
      && (|r| == |s| || s[|s| - |r| - 1] == sep)
  {
  }

  /**
   A string has only one separator-free suffix that is either the whole
   string or preceded by a separator; here it is shown equal to `seg`.
   */
  lemma MaximalSuffixUnique(s: string, pre: string, seg: string, r: string, sep: char)
    requires s == pre + [sep] + seg
    requires sep !in seg && sep !in r
    requires |r| <= |s| && s[|s| - |r|..] == r
    requires |r| == |s| || s[|s| - |r| - 1] == sep
    ensures r == seg
  {
    assert s[|pre|] == sep;
    if |r| > |seg| {
      assert false;
    } else if |r| < |seg| {
      assert false;
    }
    assert s[|s| - |seg|..] == seg;
  }

  /**
   The last piece of `pre + [sep] + seg` is `seg` whatever `pre` holds, when
   `seg` has no separator.
   */
  lemma LastPieceAfter(pre: string, seg: string, sep: char)
    requires sep !in seg
    ensures var parts := Split(pre + [sep] + seg, sep);
      parts[|parts| - 1] == seg
  {
    LastPieceOf(pre + [sep] + seg, pre, seg, sep);
  }

  /** `LastPieceAfter` for a string `s` already known to be `pre + [sep] + seg`. */
  lemma LastPieceOf(s: string, pre: string, seg: string, sep: char)
    requires s == pre + [sep] + seg
    requires sep !in seg
    ensures var parts := Split(s, sep);
      parts[|parts| - 1] == seg
  {
    var parts := Split(s, sep);
    LastPiece(s, sep);
    MaximalSuffixUnique(s, pre, seg, parts[|parts| - 1], sep);
  }

  /**
   A separator-free prefix followed by a separator is the first piece, so the
   first piece of `seg + [sep] + post` is `seg` whatever `post` holds.
   */
  lemma FirstPieceBefore(seg: string, post: string, sep: char)
    requires sep !in seg
    ensures Split(seg + [sep] + post, sep)[0] == seg
  {
    SplitAtFirst(seg, post, sep);
  }

  // ---------------------------------------------------------------------------
  // isalpha / upper over ASCII
  // ---------------------------------------------------------------------------

  predicate IsLower(c: char)
  {
    'a' <= c <= 'z'
  }

  predicate IsUpper(c: char)
  {
    'A' <= c <= 'Z'
  }

  predicate IsLetter(c: char)
  {
    IsLower(c) || IsUpper(c)
  }

  /** Python's `s.isalpha()`: true when `s` is non-empty and every character is a letter. */
  predicate IsAlpha(s: string)
  {
    |s| > 0 && forall i :: 0 <= i < |s| ==> IsLetter(s[i])
  }

  /** No character of `s` is a lower-case letter. */
  predicate NoLower(s: string)
  {
    forall i :: 0 <= i < |s| ==> !IsLower(s[i])
  }

  /** Upper-cases one character; anything but `a`-`z` is left alone. */
  function UpperChar(c: char): (u: char)
    ensures !IsLower(u)
    ensures IsLetter(c) <==> IsLetter(u)
    ensures !IsLower(c) ==> u == c
    ensures IsLower(c) ==> IsUpper(u) && u as int + 32 == c as int
  {
    if IsLower(c) then (c as int - 32) as char else c
  }

  /**
   Python's `s.upper()`: the same length, every lower-case letter replaced by
   its upper-case letter, every other character kept at its place.
   */
  function Upper(s: string): (r: string)
    ensures |r| == |s|
    ensures forall i :: 0 <= i < |s| ==> r[i] == UpperChar(s[i])
    ensures NoLower(r)
    decreases |s|
  {
    if |s| == 0 then "" else [UpperChar(s[0])] + Upper(s[1..])
  }

  /** Upper-casing is idempotent. */
  lemma UpperIdempotent(s: string)
    ensures Upper(Upper(s)) == Upper(s)
  {
  }

  /** Exactly the strings without lower-case letters are left unchanged by `Upper`. */
  lemma UpperFixedIff(s: string)
    ensures Upper(s) == s <==> NoLower(s)
  {
  }

  /** Upper-casing neither creates nor destroys the `isalpha` property. */
  lemma UpperKeepsAlpha(s: string)
    ensures IsAlpha(Upper(s)) <==> IsAlpha(s)
  {
  }

  /** `c` and `d` are the same character, or the two cases of one letter. */
  predicate SameUpToCase(c: char, d: char)
  {
    c == d || (IsLetter(c) && IsLetter(d) && (c as int - d as int == 32 || d as int - c as int == 32))
  }

  /** Two strings that differ only in the case of their letters upper-case alike. */
  lemma UpperCaseInsensitive(s: string, t: string)
    requires |s| == |t|
    requires forall i :: 0 <= i < |s| ==> SameUpToCase(s[i], t[i])
    ensures Upper(s) == Upper(t)
  {
    forall i | 0 <= i < |s|
      ensures Upper(s)[i] == Upper(t)[i]
    {
      assert SameUpToCase(s[i], t[i]);
    }
  }
}
