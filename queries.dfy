/**
 * Pure rules the tool applies to SQL text: the read/write classification,
 * the LIMIT rewrite of `execute_query`, the shell escaping of a query that is
 * passed to the on-device `sqlite3`, and the reading of its error output.
 */
module Queries {
  import opened Wrappers
  import opened Text

  /** The keywords `is_write_query` checks, in the source's order. */
  const WriteKeywords: seq<string> := ["INSERT", "UPDATE", "DELETE", "DROP", "CREATE", "ALTER", "REPLACE"]

  /** The query as every classification sees it: stripped, then upper-cased. */
  function Normalized(q: string): string {
    Upper(Strip(q))
  }

  /** `is_write_query`: a prefix check against the write keywords, nothing more. */
  predicate IsWriteQuery(q: string) {
    StartsWithWriteKeyword(Normalized(q))
  }

  /** The read test used by the empty-output rule and by local execution: SELECT or PRAGMA. */
  predicate IsReadQuery(q: string) {
    StartsWith(Normalized(q), "SELECT") || StartsWith(Normalized(q), "PRAGMA")
  }

  /** Python truthiness of the optional `limit` argument: `None` and `0` are false. */
  predicate LimitGiven(limit: Option<int>) {
    limit.Some? && limit.value != 0
  }

  /** The three conditions under which `execute_query` appends a LIMIT clause. */
  predicate LimitApplies(q: string, limit: Option<int>) {
    LimitGiven(limit) && !Contains(Upper(q), "LIMIT") && StartsWith(Normalized(q), "SELECT")
  }

  /** `execute_query`'s rewrite: trailing `;` removed, then ` LIMIT n;` appended. */
  function ApplyLimit(q: string, limit: Option<int>): string {
    if LimitApplies(q, limit) then TrimEndChar(q, ';') + " LIMIT " + IntToString(limit.value) + ";"
    else q
  }

  /** The four `str.replace` calls that escape a query for a double-quoted shell word, in order. */
  function Escape(q: string): string {
    var s1 := ReplaceChar(q, '\\', "\\\\");
    var s2 := ReplaceChar(s1, '"', "\\\"");
    var s3 := ReplaceChar(s2, '$', "\\$");
    ReplaceChar(s3, '`', "\\`")
  }

  /** Characters that are special inside a double-quoted shell word. */
  predicate IsShellSpecial(c: char) {
    c == '\\' || c == '"' || c == '$' || c == '`'
  }

  function EscapeChar(c: char): string {
    if IsShellSpecial(c) then ['\\', c] else [c]
  }

  /** Escaping as a per-character map: the reference the four passes are compared with. */
  function EscapeEach(q: string): string {
    if q == [] then [] else EscapeChar(q[0]) + EscapeEach(q[1..])
  }

  /**
   * What a POSIX shell makes of the text between the double quotes: a
   * backslash before `\`, `"`, `$` or backtick yields that character and a
   * backslash-newline disappears; `None` when an unescaped `"` would end the
   * word or an unescaped `$` or backtick would start an expansion.
   */
  function ShellUnquote(s: string): Option<string> {
    if s == [] then Some([])
    else if s[0] == '\\' && |s| >= 2 && IsShellSpecial(s[1]) then
      match ShellUnquote(s[2..])
      case None => None
      case Some(t) => Some([s[1]] + t)
    else if s[0] == '\\' && |s| >= 2 && s[1] == '\n' then ShellUnquote(s[2..])
    else if s[0] == '"' || s[0] == '$' || s[0] == '`' then None
    else
      match ShellUnquote(s[1..])
      case None => None
      case Some(t) => Some([s[0]] + t)
  }

  /** What the remote-execution path does with a failed `sqlite3` run. */
  datatype RemoteFailure =
    | NotDebuggable              // fall back quietly; `last_error` stays unset
    | Failed(message: string)    // the message stored in `last_error`

  /** The text the failure rules look at: stripped stderr, or stripped stdout when that is empty. */
  function FailureText(stdout: string, stderr: string): string {
    if Strip(stderr) != "" then Strip(stderr) else Strip(stdout)
  }

  const ErrorMarker: string := "Error:"

  /** The default text when the device said nothing. */
  const GenericFailure: string := "Remote query execution failed"

  /** The error-message extraction of `execute_remote_query` for a nonzero exit code. */
  function ClassifyFailure(stdout: string, stderr: string): RemoteFailure {
    var msg := FailureText(stdout, stderr);
    if Contains(Lower(msg), "not debuggable") then NotDebuggable
    else if Contains(msg, ErrorMarker) then Failed(Strip(LastPiece(msg, ErrorMarker)))
    else if Contains(Lower(msg), "error") then Failed(msg)
    else Failed(if msg != "" then msg else GenericFailure)
  }

  // ---------------------------------------------------------------------
  // Classification

  /** No query is both a write and a read: the keyword sets start differently. */
  predicate StartsWithWriteKeyword(n: string) {
    exists k :: 0 <= k < |WriteKeywords| && StartsWith(n, WriteKeywords[k])
  }

  lemma KeywordHeads(n: string)
    ensures StartsWithWriteKeyword(n) ==> !StartsWith(n, "SELECT") && !StartsWith(n, "PRAGMA")
  {
    if StartsWithWriteKeyword(n) {
      var k :| 0 <= k < |WriteKeywords| && StartsWith(n, WriteKeywords[k]);
      assert n[0] == WriteKeywords[k][0];
    }
  }

  lemma WriteExcludesRead(q: string)
    ensures IsWriteQuery(q) ==> !IsReadQuery(q)
  {
    KeywordHeads(Normalized(q));
  }

  /** The classification is case-insensitive: upper-casing the query first changes nothing. */
  lemma ClassificationIgnoresCase(q: string)
    ensures Normalized(Upper(q)) == Normalized(q)
    ensures IsWriteQuery(Upper(q)) == IsWriteQuery(q)
    ensures IsReadQuery(Upper(q)) == IsReadQuery(q)
  {
    StripUpper(q);
    UpperIdempotent(Strip(q));
  }

  /** Leading whitespace never changes the classification. */
  lemma ClassificationIgnoresLeadingSpace(w: string, q: string)
    requires forall i :: 0 <= i < |w| ==> IsSpace(w[i])
    ensures Normalized(w + q) == Normalized(q)
    ensures IsWriteQuery(w + q) == IsWriteQuery(q)
    ensures IsReadQuery(w + q) == IsReadQuery(q)
  {
    TrimStartOfSpaces(w, q);
  }

  // ---------------------------------------------------------------------
  // LIMIT rewrite

  /** Only a SELECT is ever rewritten: writes, PRAGMAs and everything else pass through. */
  lemma LimitOnlyTouchesSelect(q: string, limit: Option<int>)
    ensures ApplyLimit(q, limit) != q ==> StartsWith(Normalized(q), "SELECT") && LimitGiven(limit)
    ensures IsWriteQuery(q) || StartsWith(Normalized(q), "PRAGMA") ==> ApplyLimit(q, limit) == q
  {
    var n := Normalized(q);
    KeywordHeads(n);
    PragmaIsNotSelect(n);
    assert IsWriteQuery(q) || StartsWith(n, "PRAGMA") ==> !StartsWith(n, "SELECT");
  }

  lemma PragmaIsNotSelect(n: string)
    ensures StartsWith(n, "PRAGMA") ==> !StartsWith(n, "SELECT")
  {
    if StartsWith(n, "PRAGMA") {
      assert n[0] == 'P';
    }
  }

  /** A letter is neither whitespace nor the `;` that the rewrite trims. */
  lemma LetterIsPlain(c: char, l: char)
    requires 'A' <= l <= 'Z' && UpperChar(c) == l
    ensures !IsSpace(c) && c != ';'
  {
  }

  /** Where the SELECT of a query sits: after its leading blanks, as six letters. */
  lemma SelectHead(q: string) returns (lo: nat)
    requires StartsWith(Normalized(q), "SELECT")
    ensures lo + 6 <= |q|
    ensures forall k :: 0 <= k < lo ==> IsSpace(q[k])
    ensures forall k :: lo <= k < lo + 6 ==> UpperChar(q[k]) == "SELECT"[k - lo] && q[k] != ';' && !IsSpace(q[k])
  {
    lo := SkipSpaces(q, 0);
    var core := Strip(q);
    assert core == q[lo..][..|core|];
    forall i | 0 <= i < 6 ensures q[lo + i] == core[i] && UpperChar(core[i]) == "SELECT"[i] {
      assert Upper(core)[i] == "SELECT"[i];
    }
    forall k | lo <= k < lo + 6 ensures UpperChar(q[k]) == "SELECT"[k - lo] && q[k] != ';' && !IsSpace(q[k]) {
      LetterIsPlain(q[k], "SELECT"[k - lo]);
    }
    forall k | 0 <= k < lo ensures IsSpace(q[k]) {
      SkipSpacesSkipsOnlySpaces(q, 0, k);
    }
  }

  /** A query whose stripped, upper-cased form starts with SELECT keeps that prefix in front of a rewrite. */
  lemma RewriteStillSelect(q: string, tail: string)
    requires StartsWith(Normalized(q), "SELECT")
    ensures StartsWith(Normalized(TrimEndChar(q, ';') + tail), "SELECT")
  {
    var lo := SelectHead(q);
    var m := BackChar(q, ';', |q|);
    assert m >= lo + 6 by {
      if m <= lo + 5 {
        BackCharDropsOnly(q, ';', |q|, lo + 5);
      }
    }
    var r := q[..m] + tail;
    SelectAfterBlanks(r, q, lo);
  }

  /** A string that agrees with `q` on the blanks and the six letters of its SELECT also starts with SELECT. */
  lemma SelectAfterBlanks(r: string, q: string, lo: nat)
    requires lo + 6 <= |q| && lo + 6 <= |r|
    requires forall k :: 0 <= k < lo + 6 ==> r[k] == q[k]
    requires forall k :: 0 <= k < lo ==> IsSpace(q[k])
    requires forall k :: lo <= k < lo + 6 ==> UpperChar(q[k]) == "SELECT"[k - lo] && q[k] != ';' && !IsSpace(q[k])
    ensures StartsWith(Normalized(r), "SELECT")
  {
    StripHead(r, lo, 6);
    var n := Normalized(r);
    forall i | 0 <= i < 6 ensures n[i] == "SELECT"[i] {
      assert Strip(r)[i] == r[lo + i];
    }
    assert n[..6] == "SELECT";
  }

  /**
   * The rewrite does not change how the query is classified afterwards, and a
   * SELECT that got a limit mentions LIMIT from then on.
   */
  lemma LimitKeepsClassification(q: string, limit: Option<int>)
    ensures IsWriteQuery(ApplyLimit(q, limit)) == IsWriteQuery(q)
    ensures IsReadQuery(ApplyLimit(q, limit)) == IsReadQuery(q)
  {
    if LimitApplies(q, limit) {
      RewriteStillSelect(q, " LIMIT " + IntToString(limit.value) + ";");
      assert TrimEndChar(q, ';') + " LIMIT " + IntToString(limit.value) + ";"
          == TrimEndChar(q, ';') + (" LIMIT " + IntToString(limit.value) + ";");
      WriteExcludesRead(q);
      WriteExcludesRead(ApplyLimit(q, limit));
    }
  }

  /** Applying the rewrite twice is the same as applying it once. */
  lemma LimitIdempotent(q: string, limit: Option<int>)
    ensures ApplyLimit(ApplyLimit(q, limit), limit) == ApplyLimit(q, limit)
    ensures LimitGiven(limit) && StartsWith(Normalized(q), "SELECT") ==> Contains(Upper(ApplyLimit(q, limit)), "LIMIT")
  {
    if LimitApplies(q, limit) {
      var head := TrimEndChar(q, ';');
      var rest := " " + IntToString(limit.value) + ";";
      assert ApplyLimit(q, limit) == head + " LIMIT" + rest;
      UpperMentionsLimit(head, rest);
    }
  }

  /** Whatever surrounds it, ` LIMIT` still reads LIMIT once upper-cased. */
  lemma UpperMentionsLimit(head: string, rest: string)
    ensures Contains(Upper(head + " LIMIT" + rest), "LIMIT")
  {
    assert head + " LIMIT" + rest == (head + " ") + "LIMIT" + rest;
    UpperConcat((head + " ") + "LIMIT", rest);
    UpperConcat(head + " ", "LIMIT");
    UpperFixed("LIMIT");
    ContainsAt("LIMIT", 0, "LIMIT");
    ContainsWithin(Upper(head + " "), "LIMIT", Upper(rest), "LIMIT");
  }

  // ---------------------------------------------------------------------
  // Shell escaping

  lemma EscapeConcat(a: string, b: string)
    ensures Escape(a + b) == Escape(a) + Escape(b)
  {
    var a1, b1 := ReplaceChar(a, '\\', "\\\\"), ReplaceChar(b, '\\', "\\\\");
    ReplaceCharConcat(a, b, '\\', "\\\\");
    var a2, b2 := ReplaceChar(a1, '"', "\\\""), ReplaceChar(b1, '"', "\\\"");
    ReplaceCharConcat(a1, b1, '"', "\\\"");
    var a3, b3 := ReplaceChar(a2, '$', "\\$"), ReplaceChar(b2, '$', "\\$");
    ReplaceCharConcat(a2, b2, '$', "\\$");
    ReplaceCharConcat(a3, b3, '`', "\\`");
  }

  lemma EscapeOne(c: char)
    ensures Escape([c]) == EscapeChar(c)
  {
    ReplaceCharOne(c, '\\', "\\\\");
    var s1 := ReplaceChar([c], '\\', "\\\\");
    if c == '"' { ReplaceCharOne(c, '"', "\\\""); } else { ReplaceCharAbsent(s1, '"', "\\\""); }
    var s2 := ReplaceChar(s1, '"', "\\\"");
    if c == '$' { ReplaceCharOne(c, '$', "\\$"); } else { ReplaceCharAbsent(s2, '$', "\\$"); }
    var s3 := ReplaceChar(s2, '$', "\\$");
    if c == '`' { ReplaceCharOne(c, '`', "\\`"); } else { ReplaceCharAbsent(s3, '`', "\\`"); }
  }

  /** The four sequential replacements amount to escaping each character on its own. */
  lemma {:induction false} EscapeIsCharwise(q: string)
    ensures Escape(q) == EscapeEach(q)
    decreases |q|
  {
    if q != [] {
      assert q == [q[0]] + q[1..];
      EscapeConcat([q[0]], q[1..]);
      EscapeOne(q[0]);
      EscapeIsCharwise(q[1..]);
    }
  }

  lemma {:induction false} UnquoteEscapeEach(q: string)
    ensures ShellUnquote(EscapeEach(q)) == Some(q)
    decreases |q|
  {
    if q != [] {
      var e := EscapeEach(q);
      var rest := EscapeEach(q[1..]);
      UnquoteEscapeEach(q[1..]);
      if IsShellSpecial(q[0]) {
        assert e[0] == '\\' && e[1] == q[0] && e[2..] == rest;
      } else {
        assert e[0] == q[0] && e[1..] == rest;
      }
      assert [q[0]] + q[1..] == q;
    }
  }

  /**
   * Escaping is exact: the device shell, reading the escaped text between
   * double quotes, neither ends the word early nor expands anything, and
   * hands `sqlite3` the original query.
   */
  lemma EscapeRoundTrip(q: string)
    ensures ShellUnquote(Escape(q)) == Some(q)
  {
    EscapeIsCharwise(q);
    UnquoteEscapeEach(q);
  }

  // ---------------------------------------------------------------------
  // Error extraction

  lemma SubstringFree(a: string, u: string, b: string, sub: string)
    requires !Contains(a + u + b, sub)
    ensures !Contains(u, sub)
  {
    if Contains(u, sub) {
      ContainsWithin(a, u, b, sub);
    }
  }

  /**
   * What `last_error` receives from a failed remote run: "not debuggable"
   * anywhere (any case) means a quiet fallback; otherwise the stripped last
   * piece of `split("Error:")` (free of further markers), else the whole message, else a
   * fixed default, so that the message is empty only when the device put
   * nothing after its last `Error:`.
   */
  lemma FailureMessage(stdout: string, stderr: string)
    ensures var msg := FailureText(stdout, stderr);
      && (ClassifyFailure(stdout, stderr).NotDebuggable? <==> Contains(Lower(msg), "not debuggable"))
      && (ClassifyFailure(stdout, stderr).Failed? && Contains(msg, ErrorMarker) ==>
            var pieces := Split(msg, ErrorMarker);
            && ClassifyFailure(stdout, stderr).message == Strip(pieces[|pieces| - 1])
            && !Contains(ClassifyFailure(stdout, stderr).message, ErrorMarker)
            && |ClassifyFailure(stdout, stderr).message| < |msg|)
      && (ClassifyFailure(stdout, stderr).Failed? && !Contains(msg, ErrorMarker) ==>
            ClassifyFailure(stdout, stderr).message != [])
  {
    var msg := FailureText(stdout, stderr);
    if !Contains(Lower(msg), "not debuggable") && Contains(msg, ErrorMarker) {
      var piece := LastPiece(msg, ErrorMarker);
      LastPieceIsLastSplit(msg, ErrorMarker);
      LastPieceFree(msg, ErrorMarker);
      LastPieceSuffix(msg, ErrorMarker);
      var a, b := StripInside(piece);
      assert piece == a + Strip(piece) + b;
      SubstringFree(a, Strip(piece), b, ErrorMarker);
      assert |piece| < |msg|;
    }
  }
}
