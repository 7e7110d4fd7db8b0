/**
 * The parser `_execute_remote_query_fallback` applies to
 * `sqlite3 -header -separator "|"` output: a header line, then one line per row.
 */
module PipeTable {
  import opened Text
  import opened World

  function StripAll(xs: seq<string>): seq<string> {
    seq(|xs|, i requires 0 <= i < |xs| => Strip(xs[i]))
  }

  /** `[v.strip() for v in line.split('|')]` */
  function Fields(line: string): seq<string> {
    StripAll(SplitOn(line, '|'))
  }

  /** The header names, as a set. */
  function Names(headers: seq<string>): set<string> {
    set j | 0 <= j < |headers| :: headers[j]
  }

  /** `dict(zip(headers, values))`: pairs inserted left to right, so a later duplicate name wins. */
  function ZipRow(headers: seq<string>, values: seq<string>): Row
    requires |headers| == |values|
    decreases |headers|
  {
    if headers == [] then map[]
    else
      var n := |headers| - 1;
      ZipRow(headers[..n], values[..n])[headers[n] := JStr(values[n])]
  }

  /** A data line that yields a row: not blank, with exactly one field per header. */
  predicate Kept(headers: seq<string>, line: string) {
    Strip(line) != "" && |Fields(line)| == |headers|
  }

  /** The rows the kept data lines yield, in order. */
  function RowsOf(headers: seq<string>, lines: seq<string>): seq<Row>
    decreases |lines|
  {
    if lines == [] then []
    else
      var init := RowsOf(headers, lines[..|lines| - 1]);
      var line := lines[|lines| - 1];
      if Kept(headers, line) then init + [ZipRow(headers, Fields(line))] else init
  }

  /** `result.stdout.strip().split('\n')` */
  function Lines(out: string): (r: seq<string>)
    ensures |r| >= 1
  {
    SplitOn(Strip(out), '\n')
  }

  function Headers(out: string): seq<string> {
    Fields(Lines(out)[0])
  }

  /** The rows the parser returns for a given output. */
  function Table(out: string): seq<Row> {
    RowsOf(Headers(out), Lines(out)[1..])
  }

  /** The parsing loop of `_execute_remote_query_fallback`. */
  method ParseTable(out: string) returns (rows: seq<Row>)
    ensures rows == Table(out)
    ensures |rows| <= |Lines(out)| - 1
    ensures forall i :: 0 <= i < |rows| ==> rows[i].Keys == Names(Headers(out))
  {
    var lines := Lines(out);
    var headers := Fields(lines[0]);
    rows := [];
    var i := 1;
    while i < |lines|
      invariant 1 <= i <= |lines|
      invariant rows == RowsOf(headers, lines[1..i])
    {
      var line := lines[i];
      RowsOfStep(headers, lines, i);
      if Strip(line) != "" {
        var values := Fields(line);
        if |values| == |headers| {
          rows := rows + [ZipRow(headers, values)];
        }
      }
      i := i + 1;
    }
    assert lines[1..i] == lines[1..];
    RowsBound(headers, lines[1..]);
    RowsKeys(headers, lines[1..]);
  }

  /** Taking one more data line adds its row when it is kept. */
  lemma RowsOfStep(headers: seq<string>, lines: seq<string>, i: nat)
    requires 1 <= i < |lines|
    ensures RowsOf(headers, lines[1..i + 1])
      == RowsOf(headers, lines[1..i]) + (if Kept(headers, lines[i]) then [ZipRow(headers, Fields(lines[i]))] else [])
  {
    assert lines[1..i + 1][..i - 1] == lines[1..i];
  }

  /** Every row the kept lines yield maps exactly the header names. */
  lemma RowsKeys(headers: seq<string>, lines: seq<string>)
    ensures forall j :: 0 <= j < |RowsOf(headers, lines)| ==> RowsOf(headers, lines)[j].Keys == Names(headers)
  {
    var rows := RowsOf(headers, lines);
    RowsFromKeptLines(headers, lines);
    forall j | 0 <= j < |rows| ensures rows[j].Keys == Names(headers) {
      assert FromKeptLine(headers, lines, rows[j]);
      var k :| 0 <= k < |lines| && Kept(headers, lines[k]) && rows[j] == ZipRow(headers, Fields(lines[k]));
      ZipRowKeys(headers, Fields(lines[k]));
    }
  }

  // ---------------------------------------------------------------------

  /** A row maps exactly the header names. */
  lemma {:induction false} ZipRowKeys(headers: seq<string>, values: seq<string>)
    requires |headers| == |values|
    ensures ZipRow(headers, values).Keys == Names(headers)
    decreases |headers|
  {
    if headers != [] {
      var n := |headers| - 1;
      ZipRowKeys(headers[..n], values[..n]);
      assert Names(headers) == Names(headers[..n]) + {headers[n]} by {
        assert forall j :: 0 <= j < n ==> headers[..n][j] == headers[j];
      }
    }
  }

  /** Each name maps to the value at its last occurrence among the headers. */
  lemma {:induction false} ZipRowValue(headers: seq<string>, values: seq<string>, j: nat)
    requires |headers| == |values| && j < |headers|
    requires forall k :: j < k < |headers| ==> headers[k] != headers[j]
    ensures headers[j] in ZipRow(headers, values) && ZipRow(headers, values)[headers[j]] == JStr(values[j])
    decreases |headers|
  {
    var n := |headers| - 1;
    if j < n {
      ZipRowValue(headers[..n], values[..n], j);
    }
  }

  /** There are never more rows than data lines. */
  lemma {:induction false} RowsBound(headers: seq<string>, lines: seq<string>)
    ensures |RowsOf(headers, lines)| <= |lines|
    decreases |lines|
  {
    if lines != [] {
      RowsBound(headers, lines[..|lines| - 1]);
    }
  }

  /** `row` is what some kept line of `lines` yields. */
  predicate FromKeptLine(headers: seq<string>, lines: seq<string>, row: Row) {
    exists k :: 0 <= k < |lines| && Kept(headers, lines[k]) && row == ZipRow(headers, Fields(lines[k]))
  }

  /** Every row is the zip of the headers with the fields of some kept line. */
  lemma {:induction false} RowsFromKeptLines(headers: seq<string>, lines: seq<string>)
    ensures forall i :: 0 <= i < |RowsOf(headers, lines)| ==> FromKeptLine(headers, lines, RowsOf(headers, lines)[i])
    decreases |lines|
  {
    if lines != [] {
      var n := |lines| - 1;
      var init := lines[..n];
      RowsFromKeptLines(headers, init);
      var rows := RowsOf(headers, lines);
      forall i | 0 <= i < |rows| ensures FromKeptLine(headers, lines, rows[i]) {
        if i < |RowsOf(headers, init)| {
          assert FromKeptLine(headers, init, RowsOf(headers, init)[i]);
          var k :| 0 <= k < |init| && Kept(headers, init[k]) && RowsOf(headers, init)[i] == ZipRow(headers, Fields(init[k]));
          assert lines[k] == init[k] && rows[i] == RowsOf(headers, init)[i];
        } else {
          assert Kept(headers, lines[n]) && rows[i] == ZipRow(headers, Fields(lines[n]));
        }
      }
    }
  }

  /** A kept line always yields a row: nothing but blank and ill-sized lines is dropped. */
  lemma {:induction false} KeptLinesYieldRows(headers: seq<string>, lines: seq<string>, k: nat)
    requires k < |lines| && Kept(headers, lines[k])
    ensures ZipRow(headers, Fields(lines[k])) in RowsOf(headers, lines)
    decreases |lines|
  {
    var n := |lines| - 1;
    if k < n {
      KeptLinesYieldRows(headers, lines[..n], k);
    }
  }
}
