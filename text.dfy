/**
 * The handful of Python `str` operations the tool relies on, on `seq<char>`.
 * Case mapping is ASCII only; whitespace is Python's `str.isspace` set.
 */
module Text {
  import opened Wrappers

  /** Python's whitespace characters (`str.isspace`), the set `strip()` removes. */
  const Whitespace: set<char> := {
    '\t', '\n', '\U{0b}', '\U{0c}', '\r', '\U{1c}', '\U{1d}', '\U{1e}', '\U{1f}', ' ',
    '\U{85}', '\U{a0}', '\U{1680}', '\U{2000}', '\U{2001}', '\U{2002}', '\U{2003}', '\U{2004}',
    '\U{2005}', '\U{2006}', '\U{2007}', '\U{2008}', '\U{2009}', '\U{200a}', '\U{2028}',
    '\U{2029}', '\U{202f}', '\U{205f}', '\U{3000}'
  }

  predicate IsSpace(c: char) {
    c in Whitespace
  }

  /** The first index at or after `i` that does not hold whitespace. */
  function SkipSpaces(s: string, i: nat): (j: nat)
    requires i <= |s|
    ensures i <= j <= |s|
    ensures j < |s| ==> !IsSpace(s[j])
    decreases |s| - i
  {
    if i < |s| && IsSpace(s[i]) then SkipSpaces(s, i + 1) else i
  }

  /** The end of `s[..j]` once its trailing whitespace is dropped. */
  function BackSpaces(s: string, j: nat): (i: nat)
    requires j <= |s|
    ensures i <= j
    ensures i > 0 ==> !IsSpace(s[i - 1])
    decreases j
  {
    if j > 0 && IsSpace(s[j - 1]) then BackSpaces(s, j - 1) else j
  }

  /** The end of `s[..j]` once its trailing copies of `c` are dropped. */
  function BackChar(s: string, c: char, j: nat): (i: nat)
    requires j <= |s|
    ensures i <= j
    ensures i > 0 ==> s[i - 1] != c
    decreases j
  {
    if j > 0 && s[j - 1] == c then BackChar(s, c, j - 1) else j
  }

  /** `s.lstrip()` */
  function TrimStart(s: string): string {
    s[SkipSpaces(s, 0)..]
  }

  /** `s.rstrip()` */
  function TrimEnd(s: string): string {
    s[..BackSpaces(s, |s|)]
  }

  /** `s.strip()` */
  function Strip(s: string): string {
    TrimEnd(TrimStart(s))
  }

  /** `s.rstrip(c)` for a one-character argument. */
  function TrimEndChar(s: string, c: char): string {
    s[..BackChar(s, c, |s|)]
  }

  function UpperChar(c: char): char {
    if 'a' <= c <= 'z' then (c as int - 32) as char else c
  }

  function LowerChar(c: char): char {
    if 'A' <= c <= 'Z' then (c as int + 32) as char else c
  }

  /** `s.upper()`, ASCII letters only. */
  function Upper(s: string): string {
    seq(|s|, i requires 0 <= i < |s| => UpperChar(s[i]))
  }

  /** `s.lower()`, ASCII letters only. */
  function Lower(s: string): string {
    seq(|s|, i requires 0 <= i < |s| => LowerChar(s[i]))
  }

  /** `s.startswith(p)` */
  predicate StartsWith(s: string, p: string) {
    |p| <= |s| && s[..|p|] == p
  }

  /** `sub in s` */
  predicate Contains(s: string, sub: string) {
    exists i :: 0 <= i <= |s| && StartsWith(s[i..], sub)
  }

  /** `s.replace(c, repl)` for a one-character `c`. */
  function ReplaceChar(s: string, c: char, repl: string): string {
    if s == [] then []
    else (if s[0] == c then repl else [s[0]]) + ReplaceChar(s[1..], c, repl)
  }

  /** `s.split(c)` for a one-character separator. */
  function SplitOn(s: string, c: char): (r: seq<string>)
    ensures |r| >= 1
  {
    if s == [] then [""]
    else
      var rest := SplitOn(s[1..], c);
      if s[0] == c then [""] + rest else [[s[0]] + rest[0]] + rest[1..]
  }

  /**
   * `s.split(sep)[-1]`: Python scans left to right for non-overlapping
   * occurrences of `sep`; this is the text after the last split point.
   */
  function LastPiece(s: string, sep: string): string
    requires sep != []
    decreases |s|
  {
    if !Contains(s, sep) then s
    else if StartsWith(s, sep) then LastPiece(s[|sep|..], sep)
    else LastPiece(s[1..], sep)
  }

  /**
   * `s.split(sep)`, the reference for `LastPiece`: scanning left to right,
   * each occurrence of `sep` ends a piece and is skipped whole.
   */
  function Split(s: string, sep: string): (r: seq<string>)
    requires sep != []
    ensures |r| >= 1
    decreases |s|
  {
    if s == [] then [""]
    else if StartsWith(s, sep) then [""] + Split(s[|sep|..], sep)
    else
      var rest := Split(s[1..], sep);
      [[s[0]] + rest[0]] + rest[1..]
  }

  function DigitChar(d: nat): char
    requires d < 10
  {
    "0123456789"[d]
  }

  /** Python's `str(n)` for a non-negative `int`. */
  function NatToString(n: nat): (r: string)
    ensures r != []
  {
    if n < 10 then [DigitChar(n)] else NatToString(n / 10) + [DigitChar(n % 10)]
  }

  /** Python's `str(n)` for an `int`. */
  function IntToString(n: int): string {
    if n < 0 then "-" + NatToString(-n) else NatToString(n)
  }

  predicate IsDigit(c: char) {
    '0' <= c <= '9'
  }

  function DigitValue(c: char): nat
    requires IsDigit(c)
  {
    c as int - '0' as int
  }

  /**
   * The digits of `s` as a number, when `s` is what Python's `int()` accepts
   * after its sign: ASCII digits, with single underscores between digits.
   */
  function ParseDigits(s: string): Option<nat>
    decreases |s|
  {
    if s == [] || !IsDigit(s[|s| - 1]) then None
    else if |s| == 1 then Some(DigitValue(s[0]))
    else
      var init := s[..|s| - 1];
      var head := if init[|init| - 1] == '_' then init[..|init| - 1] else init;
      if head == [] then None
      else match ParseDigits(head)
        case None => None
        case Some(v) => Some(10 * v + DigitValue(s[|s| - 1]))
  }

  /** Python's `int(s)` on an already stripped string; `None` where it raises `ValueError`. */
  function ParseInt(s: string): Option<int> {
    if s != [] && s[0] == '-' then
      match ParseDigits(s[1..])
      case None => None
      case Some(v) => Some(-(v as int))
    else if s != [] && s[0] == '+' then ParseDigits(s[1..])
    else
      match ParseDigits(s)
      case None => None
      case Some(v) => Some(v)
  }

  // ---------------------------------------------------------------------
  // Facts about the operations above, used by the query and parser lemmas.

  lemma UpperPrefix(s: string, k: nat)
    requires k <= |s|
    ensures Upper(s)[..k] == Upper(s[..k])
  {
  }

  lemma UpperConcat(a: string, b: string)
    ensures Upper(a + b) == Upper(a) + Upper(b)
  {
  }

  lemma UpperIdempotent(s: string)
    ensures Upper(Upper(s)) == Upper(s)
  {
  }

  /** A string with no lower-case ASCII letter is its own upper case. */
  lemma UpperFixed(s: string)
    requires forall i :: 0 <= i < |s| ==> !('a' <= s[i] <= 'z')
    ensures Upper(s) == s
  {
  }

  lemma {:induction false} SkipSpacesSkipsOnlySpaces(s: string, i: nat, k: nat)
    requires i <= |s| && i <= k < SkipSpaces(s, i)
    ensures IsSpace(s[k])
    decreases |s| - i
  {
    if k > i {
      SkipSpacesSkipsOnlySpaces(s, i + 1, k);
    }
  }

  lemma {:induction false} BackSpacesDropsOnlySpaces(s: string, j: nat, k: nat)
    requires j <= |s| && BackSpaces(s, j) <= k < j
    ensures IsSpace(s[k])
    decreases j
  {
    if k < j - 1 {
      BackSpacesDropsOnlySpaces(s, j - 1, k);
    }
  }

  /** `lstrip()` removes only whitespace. */
  lemma TrimStartRemovesSpaces(s: string)
    ensures |TrimStart(s)| <= |s| && TrimStart(s) == s[|s| - |TrimStart(s)|..]
    ensures forall k :: 0 <= k < |s| - |TrimStart(s)| ==> IsSpace(s[k])
    ensures TrimStart(s) != [] ==> !IsSpace(TrimStart(s)[0])
  {
    forall k | 0 <= k < |s| - |TrimStart(s)| ensures IsSpace(s[k]) {
      SkipSpacesSkipsOnlySpaces(s, 0, k);
    }
  }

  /** `rstrip()` removes only whitespace. */
  lemma TrimEndRemovesSpaces(s: string)
    ensures |TrimEnd(s)| <= |s| && TrimEnd(s) == s[..|TrimEnd(s)|]
    ensures forall k :: |TrimEnd(s)| <= k < |s| ==> IsSpace(s[k])
  {
    forall k | |TrimEnd(s)| <= k < |s| ensures IsSpace(s[k]) {
      BackSpacesDropsOnlySpaces(s, |s|, k);
    }
  }

  /** `rstrip(c)` removes only copies of `c`. */
  lemma {:induction false} BackCharDropsOnly(s: string, c: char, j: nat, k: nat)
    requires j <= |s| && BackChar(s, c, j) <= k < j
    ensures s[k] == c
    decreases j
  {
    if k < j - 1 {
      BackCharDropsOnly(s, c, j - 1, k);
    }
  }

  lemma SpaceUpper(c: char)
    ensures IsSpace(UpperChar(c)) == IsSpace(c)
  {
  }

  lemma {:induction false} SkipSpacesUpper(s: string, i: nat)
    requires i <= |s|
    ensures SkipSpaces(Upper(s), i) == SkipSpaces(s, i)
    decreases |s| - i
  {
    if i < |s| {
      SpaceUpper(s[i]);
      if IsSpace(s[i]) {
        SkipSpacesUpper(s, i + 1);
      }
    }
  }

  lemma {:induction false} BackSpacesUpper(s: string, j: nat)
    requires j <= |s|
    ensures BackSpaces(Upper(s), j) == BackSpaces(s, j)
    decreases j
  {
    if j > 0 {
      SpaceUpper(s[j - 1]);
      if IsSpace(s[j - 1]) {
        BackSpacesUpper(s, j - 1);
      }
    }
  }

  /** Case mapping does not move the boundaries `strip()` finds. */
  lemma StripUpper(s: string)
    ensures Strip(Upper(s)) == Upper(Strip(s))
  {
    SkipSpacesUpper(s, 0);
    var t := TrimStart(s);
    assert TrimStart(Upper(s)) == Upper(t);
    BackSpacesUpper(t, |t|);
  }

  lemma {:induction false} SkipSpacesShift(w: string, s: string, j: nat)
    requires j <= |s|
    ensures SkipSpaces(w + s, |w| + j) == |w| + SkipSpaces(s, j)
    decreases |s| - j
  {
    assert |w| + j < |w + s| ==> (w + s)[|w| + j] == s[j];
    if j < |s| && IsSpace(s[j]) {
      SkipSpacesShift(w, s, j + 1);
    }
  }

  lemma {:induction false} SkipSpacesOverSpaces(w: string, s: string, i: nat)
    requires i <= |w|
    requires forall k :: 0 <= k < |w| ==> IsSpace(w[k])
    ensures SkipSpaces(w + s, i) == |w| + SkipSpaces(s, 0)
    decreases |w| - i
  {
    if i < |w| {
      assert (w + s)[i] == w[i];
      SkipSpacesOverSpaces(w, s, i + 1);
    } else {
      SkipSpacesShift(w, s, 0);
    }
  }

  /** Leading whitespace is exactly what `lstrip()` removes. */
  lemma TrimStartOfSpaces(w: string, s: string)
    requires forall k :: 0 <= k < |w| ==> IsSpace(w[k])
    ensures TrimStart(w + s) == TrimStart(s)
  {
    SkipSpacesOverSpaces(w, s, 0);
  }

  lemma {:induction false} SkipSpacesPrefix(a: string, b: string, i: nat)
    requires i <= |a| && SkipSpaces(a, i) < |a|
    ensures SkipSpaces(a + b, i) == SkipSpaces(a, i)
    decreases |a| - i
  {
    assert (a + b)[i] == a[i];
    if IsSpace(a[i]) {
      SkipSpacesPrefix(a, b, i + 1);
    }
  }

  /** Text appended after a non-blank string survives `lstrip()` untouched. */
  lemma TrimStartConcat(a: string, b: string)
    requires TrimStart(a) != []
    ensures TrimStart(a + b) == TrimStart(a) + b
  {
    SkipSpacesPrefix(a, b, 0);
  }

  lemma {:induction false} ReplaceCharConcat(a: string, b: string, c: char, repl: string)
    ensures ReplaceChar(a + b, c, repl) == ReplaceChar(a, c, repl) + ReplaceChar(b, c, repl)
    decreases |a|
  {
    if a == [] {
      assert a + b == b;
    } else {
      var head := if a[0] == c then repl else [a[0]];
      assert (a + b)[0] == a[0] && (a + b)[1..] == a[1..] + b;
      ReplaceCharConcat(a[1..], b, c, repl);
      assert ReplaceChar(a + b, c, repl) == head + ReplaceChar(a[1..] + b, c, repl);
      assert ReplaceChar(a, c, repl) == head + ReplaceChar(a[1..], c, repl);
    }
  }

  lemma ReplaceCharOne(a: char, c: char, repl: string)
    ensures ReplaceChar([a], c, repl) == if a == c then repl else [a]
  {
    assert [a][1..] == [];
  }

  /** Replacing a character that does not occur changes nothing. */
  lemma {:induction false} ReplaceCharAbsent(s: string, c: char, repl: string)
    requires c !in s
    ensures ReplaceChar(s, c, repl) == s
    decreases |s|
  {
    if s != [] {
      assert c !in s[1..];
      ReplaceCharAbsent(s[1..], c, repl);
    }
  }

  /** After `s.replace(c, repl)`, `c` is gone and no character outside `s` and `repl` appears. */
  lemma {:induction false} ReplaceCharRemoves(s: string, c: char, repl: string, d: char)
    requires c !in repl
    ensures c !in ReplaceChar(s, c, repl)
    ensures d in ReplaceChar(s, c, repl) ==> d in s || d in repl
    decreases |s|
  {
    if s != [] {
      ReplaceCharRemoves(s[1..], c, repl, d);
      var head := if s[0] == c then repl else [s[0]];
      assert ReplaceChar(s, c, repl) == head + ReplaceChar(s[1..], c, repl);
      assert d in s[1..] ==> d in s;
    }
  }

  /** Once the first non-blank character is found, the boundary does not move. */
  lemma {:induction false} BackSpacesAbove(s: string, j: nat, n: nat)
    requires 0 < n <= j <= |s| && !IsSpace(s[n - 1])
    ensures BackSpaces(s, j) >= n
    decreases j
  {
    if j > n {
      BackSpacesAbove(s, j - 1, n);
    }
  }

  /**
   * When `s` is blank up to `lo` and the `n` characters from `lo` are not,
   * `strip()` begins with exactly those characters.
   */
  lemma StripHead(s: string, lo: nat, n: nat)
    requires 0 < n && lo + n <= |s|
    requires forall k :: 0 <= k < lo ==> IsSpace(s[k])
    requires forall k :: lo <= k < lo + n ==> !IsSpace(s[k])
    ensures |Strip(s)| >= n && Strip(s)[..n] == s[lo..lo + n]
  {
    var w, rest := s[..lo], s[lo..];
    assert s == w + rest;
    assert !IsSpace(rest[0]);
    SkipSpacesOverSpaces(w, rest, 0);
    assert TrimStart(s) == rest;
    BackSpacesAbove(rest, |rest|, n);
  }

  lemma ContainsAt(s: string, i: nat, sub: string)
    requires i + |sub| <= |s| && s[i..i + |sub|] == sub
    ensures Contains(s, sub)
  {
    assert StartsWith(s[i..], sub);
  }

  /** A string that contains `sub` makes every string around it contain `sub`. */
  lemma ContainsWithin(a: string, u: string, b: string, sub: string)
    requires Contains(u, sub)
    ensures Contains(a + u + b, sub)
  {
    var i :| 0 <= i <= |u| && StartsWith(u[i..], sub);
    assert (a + u + b)[|a| + i..|a| + i + |sub|] == u[i..i + |sub|];
    ContainsAt(a + u + b, |a| + i, sub);
  }

  /** `strip()` only removes characters from the ends. */
  lemma StripInside(s: string) returns (a: string, b: string)
    ensures s == a + Strip(s) + b
  {
    var lo := SkipSpaces(s, 0);
    var t := s[lo..];
    var hi := BackSpaces(t, |t|);
    assert Strip(s) == s[lo..lo + hi];
    a, b := s[..lo], s[lo + hi..];
  }

  lemma {:induction false} LastPieceFree(s: string, sep: string)
    requires sep != []
    ensures !Contains(LastPiece(s, sep), sep)
    decreases |s|
  {
    if Contains(s, sep) {
      if StartsWith(s, sep) {
        LastPieceFree(s[|sep|..], sep);
      } else {
        LastPieceFree(s[1..], sep);
      }
    }
  }

  lemma {:induction false} LastPieceSuffix(s: string, sep: string)
    requires sep != []
    ensures |LastPiece(s, sep)| <= |s| && LastPiece(s, sep) == s[|s| - |LastPiece(s, sep)|..]
    decreases |s|
  {
    if Contains(s, sep) {
      LastPieceStep(s, sep);
      var t := if StartsWith(s, sep) then s[|sep|..] else s[1..];
      LastPieceSuffix(t, sep);
      var l := LastPiece(t, sep);
      assert t[|t| - |l|..] == s[|s| - |l|..];
    }
  }

  /** An occurrence after the first character is an occurrence in the tail. */
  lemma ContainsInTail(s: string, sep: string)
    requires sep != [] && Contains(s, sep) && !StartsWith(s, sep)
    ensures s != [] && Contains(s[1..], sep)
  {
    var i :| 0 <= i <= |s| && StartsWith(s[i..], sep);
    assert i != 0;
    assert s[1..][i - 1..] == s[i..];
  }

  /** A text without an occurrence has none in its tail either. */
  lemma NotInTail(s: string, sep: string)
    requires s != [] && !Contains(s, sep)
    ensures !Contains(s[1..], sep)
  {
    forall i | 0 <= i <= |s[1..]|
      ensures !StartsWith(s[1..][i..], sep)
    {
      assert s[1..][i..] == s[i + 1..];
    }
  }

  /** Without an occurrence, nothing is split off. */
  lemma {:induction false} SplitWithout(s: string, sep: string)
    requires sep != [] && !Contains(s, sep)
    ensures Split(s, sep) == [s]
    decreases |s|
  {
    if s != [] {
      assert s[0..] == s;
      assert !StartsWith(s, sep);
      NotInTail(s, sep);
      SplitWithout(s[1..], sep);
      assert [s[0]] + s[1..] == s;
    }
  }

  /** An occurrence splits the text in at least two pieces. */
  lemma {:induction false} SplitWith(s: string, sep: string)
    requires sep != [] && Contains(s, sep)
    ensures |Split(s, sep)| >= 2
    decreases |s|
  {
    if !StartsWith(s, sep) {
      ContainsInTail(s, sep);
      SplitWith(s[1..], sep);
    }
  }

  /** `LastPiece` is the last element of `split`. */
  lemma {:induction false} LastPieceIsLastSplit(s: string, sep: string)
    requires sep != []
    ensures LastPiece(s, sep) == Split(s, sep)[|Split(s, sep)| - 1]
    decreases |s|
  {
    if !Contains(s, sep) {
      SplitWithout(s, sep);
    } else if StartsWith(s, sep) {
      LastPieceIsLastSplit(s[|sep|..], sep);
    } else {
      ContainsInTail(s, sep);
      SplitWith(s[1..], sep);
      LastPieceIsLastSplit(s[1..], sep);
    }
  }

  /** One step of `LastPiece` on a text that holds `sep`. */
  lemma LastPieceStep(s: string, sep: string)
    requires sep != [] && Contains(s, sep)
    ensures StartsWith(s, sep) ==> s == sep + s[|sep|..] && LastPiece(s, sep) == LastPiece(s[|sep|..], sep)
    ensures !StartsWith(s, sep) ==>
              s == [s[0]] + s[1..] && LastPiece(s, sep) == LastPiece(s[1..], sep) && Contains(s[1..], sep)
  {
    if !StartsWith(s, sep) {
      ContainsInTail(s, sep);
    }
  }

  /** When `sep` occurs, the last piece comes straight after an occurrence of it. */
  lemma {:induction false} LastPieceAfterMarker(s: string, sep: string) returns (pre: string)
    requires sep != [] && Contains(s, sep)
    ensures s == pre + sep + LastPiece(s, sep)
    decreases |s|
  {
    LastPieceStep(s, sep);
    if StartsWith(s, sep) {
      var t := s[|sep|..];
      if Contains(t, sep) {
        var p := LastPieceAfterMarker(t, sep);
        pre := sep + p;
        AppendAssoc(sep, p, sep, LastPiece(t, sep));
      } else {
        pre := [];
        assert LastPiece(t, sep) == t;
      }
    } else {
      var t := s[1..];
      var p := LastPieceAfterMarker(t, sep);
      pre := [s[0]] + p;
      AppendAssoc([s[0]], p, sep, LastPiece(t, sep));
    }
  }

  lemma AppendAssoc(a: string, b: string, c: string, d: string)
    ensures a + (b + c + d) == (a + b) + c + d
  {
  }
}
