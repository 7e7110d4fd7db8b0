/**
 * Running a query on the device with `run-as` + `sqlite3`
 * (`execute_remote_query`) and its pipe-separated fallback.
 */
module Remote {
  import opened Wrappers
  import opened Text
  import opened Commands
  import opened World
  import opened Queries
  import opened PipeTable
  import opened Locate

  const NoPathMessage: string := "Could not find database path on device"
  const TimeoutMessage: string := "Query timed out (exceeded 60 seconds)"

  /** The escaped query as one double-quoted shell word. */
  function Quoted(q: string): string {
    "\"" + Escape(q) + "\""
  }

  /** The `sqlite3` command line: JSON output except for writes. */
  function QueryCommand(sqlite: string, db: string, q: string): string {
    sqlite + " " + db + (if IsWriteQuery(q) then " " else " -json ") + Quoted(q)
  }

  function FallbackCommand(sqlite: string, db: string, q: string): string {
    sqlite + " " + db + " -header -separator \"|\" " + Quoted(q)
  }

  /** `_execute_remote_query_fallback`: a failed or timed-out run gives `None`. */
  function Fallback(c: Ctx, s: State, q: string, dbPath: string): (Option<seq<Row>>, State) {
    var (r, s1) := Call(c, s, Shell(c.cfg, FallbackCommand(s.sqlitePath, dbPath, q)));
    if Ok(r) then (Some(Table(r.out)), s1) else (None, s1)
  }

  /** What a successful run's output means for a read query. */
  function ReadOutcome(c: Ctx, s: State, q: string, dbPath: string, out: string): (Option<seq<Row>>, State) {
    if out == "" then (if IsReadQuery(q) then Some([]) else None, s)
    else
      match c.host.parseJson(out)
      case NotJson => Fallback(c, s, q, dbPath)
      case JsonList(rows) => (Some(rows), s)
      case JsonOtherValue => (Some([]), s)
  }

  /** `execute_remote_query` */
  function ExecuteRemote(c: Ctx, s: State, q: string): (Option<seq<Row>>, State) {
    var (p, s1) := Find(c, s.(lastError := None));
    if p.None? then (None, s1.(lastError := Some(NoPathMessage)))
    else
      var (r, s2) := Call(c, s1, Shell(c.cfg, QueryCommand(s1.sqlitePath, p.value, q)));
      if r.TimedOut? then (None, s2.(lastError := Some(TimeoutMessage)))
      else if r.code != 0 then
        match ClassifyFailure(r.out, r.err)
        case NotDebuggable => (None, s2)
        case Failed(m) => (None, s2.(lastError := Some(m)))
      else if IsWriteQuery(q) then (Some([]), s2)
      else ReadOutcome(c, s2, q, p.value, Strip(r.out))
  }

  // ---------------------------------------------------------------------

  /**
   * Every command line built here ends with the query as one double-quoted
   * word, from which the shell hands `sqlite3` exactly the query.
   */
  lemma CommandCarriesQuery(sqlite: string, db: string, q: string)
    ensures exists pre :: QueryCommand(sqlite, db, q) == pre + Quoted(q)
    ensures exists pre :: FallbackCommand(sqlite, db, q) == pre + Quoted(q)
    ensures Quoted(q) == "\"" + Escape(q) + "\"" && ShellUnquote(Escape(q)) == Some(q)
  {
    EscapeRoundTrip(q);
    var mode := if IsWriteQuery(q) then " " else " -json ";
    assert QueryCommand(sqlite, db, q) == (sqlite + " " + db + mode) + Quoted(q);
    assert FallbackCommand(sqlite, db, q) == (sqlite + " " + db + " -header -separator \"|\" ") + Quoted(q);
  }

  /**
   * Remote execution changes only `lastError` and the log. A result means
   * no error is recorded, and a recorded error means no result.
   */
  lemma RemoteOutcome(c: Ctx, s: State, q: string)
    ensures var (r, t) := ExecuteRemote(c, s, q);
      && t == s.(lastError := t.lastError, log := t.log)
      && (r.Some? ==> t.lastError.None?)
      && (t.lastError.Some? ==> r.None?)
  {
    var s0 := s.(lastError := None);
    var _ := FindSendsProbes(c, s0, Locations(c.cfg));
    var (p, s1) := Find(c, s0);
    if p.Some? {
      var a := Shell(c.cfg, QueryCommand(s1.sqlitePath, p.value, q));
      CallStep(c, s1, a);
      var (r, s2) := Call(c, s1, a);
      if Ok(r) && !IsWriteQuery(q) {
        ReadOutcomeFrame(c, s2, q, p.value, Strip(r.out));
      }
    }
  }

  /**
   * A database that cannot be found and a query that times out record their
   * fixed messages, and a write that succeeds yields `[]`.
   */
  lemma RemoteMessages(c: Ctx, s: State, q: string)
    ensures var (r, t) := ExecuteRemote(c, s, q);
      && (IsWriteQuery(q) && r.Some? ==> r.value == [])
      && (var (p, s1) := Find(c, s.(lastError := None));
          && (p.None? ==> t.lastError == Some(NoPathMessage))
          && (p.Some? && c.respond(s1.log, Shell(c.cfg, QueryCommand(s1.sqlitePath, p.value, q))).TimedOut? ==>
                t.lastError == Some(TimeoutMessage)))
  {
  }

  /** Reading the output sends at most the fallback command and changes nothing else. */
  lemma ReadOutcomeFrame(c: Ctx, s: State, q: string, dbPath: string, out: string)
    ensures var (r, t) := ReadOutcome(c, s, q, dbPath, out);
      t == s.(log := t.log) && (r.None? ==> out != "" || !IsReadQuery(q))
  {
  }

  /** The empty-output rule: no output returns `[]` for SELECT and PRAGMA and `None` otherwise. */
  lemma EmptyOutputRule(c: Ctx, s: State, q: string, dbPath: string)
    ensures ReadOutcome(c, s, q, dbPath, "") == (if IsReadQuery(q) then Some([]) else None, s)
  {
  }
}
