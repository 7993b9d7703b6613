/** Option and Result types shared by every module of the model. */
module Wrappers {
  datatype Option<+T> = None | Some(value: T)

  /** The outcome of a handler check: the accepted value, or the reason for a 4xx reply. */
  datatype Result<+T, +E> = Success(value: T) | Failure(error: E)
}

/**
 * Character classes and string helpers shared by the SQL parser (Python)
 * and the web handlers (Go).  Python's `str.isspace`/`re` `\s` and Go's
 * `unicode.IsSpace` are different sets, so both are written out.
 */
module Text {
  import opened Wrappers

  /** Python `str.isspace()`, which is also what `\s` matches in a `str` pattern. */
  predicate IsPySpace(c: char) {
    ('\t' <= c <= '\r') || ('\U{1C}' <= c <= '\U{1F}') || c == ' ' || c == '\U{85}' || c == '\U{A0}'
    || c == '\U{1680}' || ('\U{2000}' <= c <= '\U{200A}') || c == '\U{2028}' || c == '\U{2029}'
    || c == '\U{202F}' || c == '\U{205F}' || c == '\U{3000}'
  }

  /** Go `unicode.IsSpace`, used by `strings.TrimSpace`: Python's set without U+001C..U+001F. */
  predicate IsGoSpace(c: char) {
    IsPySpace(c) && !('\U{1C}' <= c <= '\U{1F}')
  }

  /** Regex `\w`, restricted to ASCII. */
  predicate IsWordChar(c: char) {
    ('a' <= c <= 'z') || ('A' <= c <= 'Z') || ('0' <= c <= '9') || c == '_'
  }

  /** The class `[A-Z_]` under IGNORECASE. */
  predicate IsTypeLetter(c: char) {
    ('a' <= c <= 'z') || ('A' <= c <= 'Z') || c == '_'
  }

  predicate IsDigit(c: char) {
    '0' <= c <= '9'
  }

  predicate AllDigits(s: string) {
    forall i :: 0 <= i < |s| ==> IsDigit(s[i])
  }

  function UpperChar(c: char): char {
    if 'a' <= c <= 'z' then (c as int - 32) as char else c
  }

  function LowerChar(c: char): char {
    if 'A' <= c <= 'Z' then (c as int + 32) as char else c
  }

  function Upper(s: string): (r: string)
    ensures |r| == |s| && forall i :: 0 <= i < |s| ==> r[i] == UpperChar(s[i])
  {
    seq(|s|, i requires 0 <= i < |s| => UpperChar(s[i]))
  }

  function Lower(s: string): (r: string)
    ensures |r| == |s| && forall i :: 0 <= i < |s| ==> r[i] == LowerChar(s[i])
  {
    seq(|s|, i requires 0 <= i < |s| => LowerChar(s[i]))
  }

  predicate HasNoUpper(s: string) {
    forall i :: 0 <= i < |s| ==> !('A' <= s[i] <= 'Z')
  }

  /** `s[i..]` starts with `t`. */
  predicate MatchAt(s: string, i: int, t: string) {
    0 <= i && i + |t| <= |s| && s[i..i + |t|] == t
  }

  /** `t in s` for Python strings, `strings.Contains` in Go. */
  predicate Contains(s: string, t: string) {
    exists i :: 0 <= i <= |s| - |t| && MatchAt(s, i, t)
  }

  /** An upper-case keyword `kw` matched case-insensitively at position `i`. */
  predicate KeywordAt(s: string, i: nat, kw: string) {
    i + |kw| <= |s| && forall k :: 0 <= k < |kw| ==> UpperChar(s[i + k]) == kw[k]
  }

  /** Index of the first non-`\s` character at or after `i`. */
  function SkipSpace(s: string, i: nat): (j: nat)
    requires i <= |s|
    ensures i <= j <= |s|
    ensures forall k :: i <= k < j ==> IsPySpace(s[k])
    ensures j < |s| ==> !IsPySpace(s[j])
    decreases |s| - i
  {
    if i < |s| && IsPySpace(s[i]) then SkipSpace(s, i + 1) else i
  }

  /** Index just past the maximal run of `\w` characters starting at `i`. */
  function WordEnd(s: string, i: nat): (j: nat)
    requires i <= |s|
    ensures i <= j <= |s|
    ensures forall k :: i <= k < j ==> IsWordChar(s[k])
    ensures j < |s| ==> !IsWordChar(s[j])
    decreases |s| - i
  {
    if i < |s| && IsWordChar(s[i]) then WordEnd(s, i + 1) else i
  }

  /** Index of the first occurrence of `c` at or after `i`, if any. */
  function FindChar(s: string, i: nat, c: char): (r: Option<nat>)
    requires i <= |s|
    ensures r.Some? ==> i <= r.value < |s| && s[r.value] == c
    ensures r.Some? ==> forall k :: i <= k < r.value ==> s[k] != c
    ensures r.None? ==> forall k :: i <= k < |s| ==> s[k] != c
    decreases |s| - i
  {
    if i == |s| then None
    else if s[i] == c then Some(i)
    else FindChar(s, i + 1, c)
  }

  /** Taking one more element of `s`. */
  lemma PrefixSnoc<T>(s: seq<T>, k: nat)
    requires k < |s|
    ensures s[..k + 1] == s[..k] + [s[k]]
  {
  }

  lemma PrefixAll<T>(s: seq<T>)
    ensures s[..|s|] == s
  {
  }

  /** Appending one element after a concatenation. */
  lemma SnocAssoc<T>(a: seq<T>, b: seq<T>, e: T)
    ensures a + (b + [e]) == (a + b) + [e]
  {
  }

  lemma AppendAssoc<T>(a: seq<T>, b: seq<T>, c: seq<T>)
    ensures a + b + c == a + (b + c)
  {
  }

  /** Regrouping six appended parts after the second. */
  lemma AppendAfterTwo<T>(a: seq<T>, b: seq<T>, c: seq<T>, d: seq<T>, e: seq<T>, f: seq<T>)
    ensures a + b + c + d + e + f == (a + b) + (c + d + e + f)
  {
  }

  // ---------------------------------------------------------------------
  // Trimming

  predicate IsTrimmedBy(s: string, sp: char -> bool) {
    |s| == 0 || (!sp(s[0]) && !sp(s[|s| - 1]))
  }

  function TrimLeftBy(s: string, sp: char -> bool): (r: string)
    ensures |r| <= |s| && r == s[|s| - |r|..]
    ensures forall k :: 0 <= k < |s| - |r| ==> sp(s[k])
    ensures |r| > 0 ==> !sp(r[0])
  {
    if |s| > 0 && sp(s[0]) then
      var r := TrimLeftBy(s[1..], sp);
      assert s[1..][|s| - 1 - |r|..] == s[|s| - |r|..];
      assert forall k :: 1 <= k < |s| - |r| ==> s[k] == s[1..][k - 1];
      r
    else s
  }

  function TrimRightBy(s: string, sp: char -> bool): (r: string)
    ensures |r| <= |s| && r == s[..|r|]
    ensures forall k :: |r| <= k < |s| ==> sp(s[k])
    ensures |r| > 0 ==> !sp(r[|r| - 1])
  {
    if |s| > 0 && sp(s[|s| - 1]) then
      var r := TrimRightBy(s[..|s| - 1], sp);
      assert s[..|s| - 1][..|r|] == s[..|r|];
      assert forall k :: |r| <= k < |s| - 1 ==> s[k] == s[..|s| - 1][k];
      r
    else s
  }

  function TrimBy(s: string, sp: char -> bool): (r: string)
    ensures IsTrimmedBy(r, sp)
    ensures |r| <= |s|
  {
    TrimRightBy(TrimLeftBy(s, sp), sp)
  }

  /** Python `str.strip()`. */
  function PyStrip(s: string): (r: string)
    ensures IsTrimmedBy(r, IsPySpace) && |r| <= |s|
  {
    TrimBy(s, IsPySpace)
  }

  /** Go `strings.TrimSpace`. */
  function GoTrimSpace(s: string): (r: string)
    ensures IsTrimmedBy(r, IsGoSpace) && |r| <= |s|
  {
    TrimBy(s, IsGoSpace)
  }

  /** Every character of `s` satisfies `sp`. */
  predicate AllBy(s: string, sp: char -> bool) {
    forall k :: 0 <= k < |s| ==> sp(s[k])
  }

  /**
   * Trimming removes exactly a leading and a trailing run of `sp` characters:
   * `s` is the result with such runs around it, and the result itself starts
   * and ends with a character outside `sp`.
   */
  lemma {:induction false} TrimBySplit(s: string, sp: char -> bool)
    ensures exists pre, post :: s == pre + TrimBy(s, sp) + post && AllBy(pre, sp) && AllBy(post, sp)
  {
    var l := TrimLeftBy(s, sp);
    var r := TrimRightBy(l, sp);
    var pre := TrimLeftSplit(s, sp);
    var post := TrimRightSplit(l, sp);
    assert s == pre + r + post by {
      AppendAssoc(pre, r, post);
    }
  }

  /** What the left trim removes is a run of `sp` characters in front of the result. */
  lemma TrimLeftSplit(s: string, sp: char -> bool) returns (pre: string)
    ensures s == pre + TrimLeftBy(s, sp) && AllBy(pre, sp)
  {
    pre := s[..|s| - |TrimLeftBy(s, sp)|];
    assert s == pre + s[|pre|..];
  }

  /** What the right trim removes is a run of `sp` characters behind the result. */
  lemma TrimRightSplit(s: string, sp: char -> bool) returns (post: string)
    ensures s == TrimRightBy(s, sp) + post && AllBy(post, sp)
  {
    var r := TrimRightBy(s, sp);
    post := s[|r|..];
    assert s == s[..|r|] + post;
    forall k | 0 <= k < |post|
      ensures sp(post[k])
    {
      assert post[k] == s[|r| + k];
    }
  }

  /** `PyStrip(s)` is `s` without a leading and a trailing run of whitespace, and neither end of it is whitespace. */
  lemma PyStripExact(s: string)
    ensures exists pre, post :: s == pre + PyStrip(s) + post && AllBy(pre, IsPySpace) && AllBy(post, IsPySpace)
    ensures IsTrimmedBy(PyStrip(s), IsPySpace)
  {
    TrimBySplit(s, IsPySpace);
  }

  /** `GoTrimSpace(s)` is `s` without a leading and a trailing run of white space, and neither end of it is white space. */
  lemma GoTrimSpaceExact(s: string)
    ensures exists pre, post :: s == pre + GoTrimSpace(s) + post && AllBy(pre, IsGoSpace) && AllBy(post, IsGoSpace)
    ensures IsTrimmedBy(GoTrimSpace(s), IsGoSpace)
  {
    TrimBySplit(s, IsGoSpace);
  }

  /** Trimming a string that has nothing to trim returns it unchanged. */
  lemma TrimOfTrimmed(s: string, sp: char -> bool)
    requires IsTrimmedBy(s, sp)
    ensures TrimBy(s, sp) == s
  {
  }

  lemma TrimKeepsChars(s: string, sp: char -> bool, c: char)
    requires forall k :: 0 <= k < |s| ==> s[k] != c
    ensures forall k :: 0 <= k < |TrimBy(s, sp)| ==> TrimBy(s, sp)[k] != c
  {
    var l := TrimLeftBy(s, sp);
    NoneInSlice(s, l, |s| - |l|, c);
    var r := TrimRightBy(l, sp);
    NoneInSlice(l, r, 0, c);
  }

  /** A slice holds no element its sequence does not hold. */
  lemma NoneInSlice<T>(s: seq<T>, x: seq<T>, a: nat, c: T)
    requires a + |x| <= |s| && x == s[a..a + |x|]
    requires forall k :: 0 <= k < |s| ==> s[k] != c
    ensures forall k :: 0 <= k < |x| ==> x[k] != c
  {
    forall k | 0 <= k < |x|
      ensures x[k] != c
    {
      assert x[k] == s[a + k];
    }
  }

  // ---------------------------------------------------------------------
  // Splitting and joining on a single separator character

  function CountChar(s: string, c: char): (n: nat)
    ensures n <= |s|
  {
    if |s| == 0 then 0 else (if s[|s| - 1] == c then 1 else 0) + CountChar(s[..|s| - 1], c)
  }

  /** `sep.join(parts)` / `strings.Join(parts, sep)`. */
  function Join(parts: seq<string>, sep: string): string {
    if |parts| == 0 then ""
    else if |parts| == 1 then parts[0]
    else Join(parts[..|parts| - 1], sep) + sep + parts[|parts| - 1]
  }

  /** Go `strings.Split(s, string(c))`, read from the left one character at a time. */
  function SplitOn(s: string, c: char): (r: seq<string>)
    ensures |r| >= 1
  {
    if |s| == 0 then [""]
    else
      var init := SplitOn(s[..|s| - 1], c);
      if s[|s| - 1] == c then init + [""]
      else init[..|init| - 1] + [init[|init| - 1] + [s[|s| - 1]]]
  }

  /** Splitting yields one more piece than there are separators, and no piece holds one. */
  lemma {:induction false} SplitOnShape(s: string, c: char)
    ensures |SplitOn(s, c)| == CountChar(s, c) + 1
    ensures forall i, k :: 0 <= i < |SplitOn(s, c)| && 0 <= k < |SplitOn(s, c)[i]| ==> SplitOn(s, c)[i][k] != c
  {
    if |s| > 0 {
      var t := s[..|s| - 1];
      var x := s[|s| - 1];
      SplitOnShape(t, c);
      var init := SplitOn(t, c);
      var r := SplitOn(s, c);
      assert r == if x == c then init + [""] else init[..|init| - 1] + [init[|init| - 1] + [x]];
      forall i, k | 0 <= i < |r| && 0 <= k < |r[i]|
        ensures r[i][k] != c
      {
        if i < |init| - 1 || (x == c && i == |init| - 1) {
          assert r[i] == init[i];
        } else if x != c {
          assert r[i] == init[|init| - 1] + [x];
        }
      }
    }
  }

  /** Joining the pieces back with the separator gives the input back. */
  lemma {:induction false} JoinSplitOn(s: string, c: char)
    ensures Join(SplitOn(s, c), [c]) == s
  {
    if |s| > 0 {
      var t := s[..|s| - 1];
      var init := SplitOn(t, c);
      JoinSplitOn(t, c);
      assert s == t + [s[|s| - 1]];
      if s[|s| - 1] == c {
        JoinAppendPart(init, "", [c]);
      } else {
        JoinExtendLast(init, [s[|s| - 1]], [c]);
      }
    }
  }

  lemma JoinAppendPart(parts: seq<string>, x: string, sep: string)
    requires |parts| >= 1
    ensures Join(parts + [x], sep) == Join(parts, sep) + sep + x
  {
    assert (parts + [x])[..|parts|] == parts;
  }

  /** Extending the last piece extends the joined text by the same characters. */
  lemma {:induction false} JoinExtendLast(parts: seq<string>, x: string, sep: string)
    requires |parts| >= 1
    ensures Join(parts[..|parts| - 1] + [parts[|parts| - 1] + x], sep) == Join(parts, sep) + x
  {
    var p := parts[..|parts| - 1];
    var q := p + [parts[|parts| - 1] + x];
    if |parts| > 1 {
      assert q[..|q| - 1] == p;
      assert parts[..|parts| - 1] == p;
    }
  }

  /** Splitting the join of separator-free pieces gives the pieces back. */
  lemma {:induction false} SplitOnJoin(parts: seq<string>, c: char)
    requires |parts| >= 1
    requires forall i, k :: 0 <= i < |parts| && 0 <= k < |parts[i]| ==> parts[i][k] != c
    ensures SplitOn(Join(parts, [c]), c) == parts
  {
    if |parts| == 1 {
      SplitOnFree(parts[0], c);
    } else {
      var p := parts[..|parts| - 1];
      var last := parts[|parts| - 1];
      LastSplit(parts);
      assert forall k :: 0 <= k < |last| ==> last[k] != c;
      SplitOnJoin(p, c);
      SplitOnAppend(Join(p, [c]), last, c);
    }
  }

  lemma LastSplit<T>(xs: seq<T>)
    requires |xs| >= 1
    ensures xs[..|xs| - 1] + [xs[|xs| - 1]] == xs
  {
  }

  lemma {:induction false} SplitOnFree(s: string, c: char)
    requires forall k :: 0 <= k < |s| ==> s[k] != c
    ensures SplitOn(s, c) == [s]
  {
    if |s| > 0 {
      SplitOnFree(s[..|s| - 1], c);
      assert s[..|s| - 1] + [s[|s| - 1]] == s;
    }
  }

  /** Appending `c` and then a separator-free word adds exactly that word as a new piece. */
  lemma {:induction false} SplitOnAppend(s: string, w: string, c: char)
    requires forall k :: 0 <= k < |w| ==> w[k] != c
    ensures SplitOn(s + [c] + w, c) == SplitOn(s, c) + [w]
    decreases |w|
  {
    if |w| == 0 {
      assert s + [c] + w == s + [c];
      assert (s + [c])[..|s + [c]| - 1] == s;
    } else {
      var w' := w[..|w| - 1];
      SplitOnAppend(s, w', c);
      assert (s + [c] + w)[..|s + [c] + w| - 1] == s + [c] + w';
      assert w' + [w[|w| - 1]] == w;
    }
  }
}
