/**
 * Query execution on the pulled copy (`execute_query_local`) and the
 * router that prefers the device (`execute_query`).
 */
module Router {
  import opened Wrappers
  import opened Text
  import opened Commands
  import opened World
  import opened Queries
  import opened Cache
  import opened Transfer
  import opened Provision
  import opened Remote

  const PullFailedMessage: string := "Failed to pull database for local execution"

  /** A local copy to run on: the one at hand, else a (compressed) pull. */
  function Prepare(c: Ctx, s: State): (r: (bool, State))
    ensures r.0 ==> r.1.localDbPath.Some? && r.1.localDbPath.value in r.1.files
    ensures !r.0 ==> !Truthy(s.localDbPath) || s.localDbPath.value !in s.files
    ensures r.1.lastError == s.lastError
  {
    if Truthy(s.localDbPath) && s.localDbPath.value in s.files then (true, s)
    else
      PullOutcome(c, s, true);
      PullKeepsError(c, s, true);
      Pull(c, s, true)
  }

  /**
   * `execute_query_local`: SELECT and PRAGMA return their rows; anything
   * else is committed and returns `[]`, and a write is pushed back first,
   * whatever the push reports.
   */
  function ExecuteLocal(c: Ctx, s: State, q: string): (Option<seq<Row>>, State) {
    var (ready, s1) := Prepare(c, s.(lastError := None));
    if !ready then (None, s1.(lastError := Some(PullFailedMessage)))
    else RunOnCopy(c, s1, q)
  }

  /** The statement run against the ready local copy, then committed, and pushed when it writes. */
  function RunOnCopy(c: Ctx, s: State, q: string): (Option<seq<Row>>, State)
    requires s.localDbPath.Some?
  {
    var local := s.localDbPath.value;
    match c.host.engine(q, BytesOf(s.files, local))
    case SqlError(m) => (None, s.(lastError := Some(m)))
    case Executed(rows, after) =>
      var s2 := s.(files := s.files[local := Blob(after)]);
      if IsReadQuery(q) then (Some(rows), s2)
      else if IsWriteQuery(q) then (Some([]), Push(c, s2).1) else (Some([]), s2)
  }

  /** `execute_query`: rewrite the LIMIT, try the device when allowed and able, else run locally. */
  function ExecuteQuery(c: Ctx, s: State, q: string, limit: Option<int>, preferRemote: bool): (Option<seq<Row>>, State) {
    var query := ApplyLimit(q, limit);
    if preferRemote && !c.cfg.forceLocal then
      var (supported, s1) := Support(c, s);
      if supported then
        var (r, s2) := ExecuteRemote(c, s1, query);
        if r.Some? then (r, s2) else ExecuteLocal(c, s2, query)
      else ExecuteLocal(c, s1, query)
    else ExecuteLocal(c, s, query)
  }

  // ---------------------------------------------------------------------

  /** A copy that could not be made ready is reported with the fixed message. */
  lemma LocalPullFailure(c: Ctx, s: State, q: string)
    requires !Prepare(c, s.(lastError := None)).0
    ensures ExecuteLocal(c, s, q).0.None?
    ensures ExecuteLocal(c, s, q).1.lastError == Some(PullFailedMessage)
  {
  }

  /** The engine's error message is recorded, and nothing is sent after the copy is ready. */
  lemma LocalEngineError(c: Ctx, s: State, q: string)
    requires var (ready, s1) := Prepare(c, s.(lastError := None));
      ready && c.host.engine(q, BytesOf(s1.files, s1.localDbPath.value)).SqlError?
    ensures var (ready, s1) := Prepare(c, s.(lastError := None));
      var (r, t) := ExecuteLocal(c, s, q);
      r.None? && t.lastError == Some(c.host.engine(q, BytesOf(s1.files, s1.localDbPath.value)).message)
      && t.log == s1.log
  {
  }

  /**
   * A read returns what the engine fetched; beyond making the copy ready it
   * changes only the local copy, to what the statement left there (a
   * writing PRAGMA is autocommitted), and it is never pushed.
   */
  lemma LocalRead(c: Ctx, s: State, q: string)
    requires IsReadQuery(q)
    requires var (ready, s1) := Prepare(c, s.(lastError := None));
      ready && c.host.engine(q, BytesOf(s1.files, s1.localDbPath.value)).Executed?
    ensures var (ready, s1) := Prepare(c, s.(lastError := None));
      var local := s1.localDbPath.value;
      var e := c.host.engine(q, BytesOf(s1.files, local));
      ExecuteLocal(c, s, q) == (Some(e.rows), s1.(files := s1.files[local := Blob(e.after)]))
  {
  }

  /**
   * Any other query yields `[]` with the committed bytes in the local file
   * and no error recorded, whatever a push reports.
   */
  lemma LocalCommit(c: Ctx, s: State, q: string)
    requires !IsReadQuery(q)
    requires var (ready, s1) := Prepare(c, s.(lastError := None));
      ready && c.host.engine(q, BytesOf(s1.files, s1.localDbPath.value)).Executed?
    ensures var (ready, s1) := Prepare(c, s.(lastError := None));
      var local := s1.localDbPath.value;
      var (r, t) := ExecuteLocal(c, s, q);
      && r == Some([]) && local in t.files
      && t.files[local] == Blob(c.host.engine(q, BytesOf(s1.files, local)).after)
      && t.lastError.None?
  {
    var p := Prepare(c, s.(lastError := None));
    CommitOnCopy(c, p.1, q);
    assert ExecuteLocal(c, s, q) == RunOnCopy(c, p.1, q);
  }

  lemma CommitOnCopy(c: Ctx, s: State, q: string)
    requires !IsReadQuery(q) && s.localDbPath.Some?
    requires c.host.engine(q, BytesOf(s.files, s.localDbPath.value)).Executed?
    ensures var local := s.localDbPath.value;
      var (r, t) := RunOnCopy(c, s, q);
      && r == Some([]) && local in t.files
      && t.files[local] == Blob(c.host.engine(q, BytesOf(s.files, local)).after)
      && t.lastError == s.lastError
  {
    var local := s.localDbPath.value;
    var e := c.host.engine(q, BytesOf(s.files, local));
    var s2 := s.(files := s.files[local := Blob(e.after)]);
    if IsWriteQuery(q) {
      PushStagingCleanup(c, s2);
    }
  }

  /** Only a write query sends anything once the copy is ready. */
  lemma LocalPushOnlyWrites(c: Ctx, s: State, q: string)
    requires !IsWriteQuery(q)
    ensures ExecuteLocal(c, s, q).1.log == Prepare(c, s.(lastError := None)).1.log
  {
  }

  /**
   * A committed write is pushed back to the device: the result is `[]` and
   * the state is what the push leaves after the committed bytes were stored.
   */
  lemma LocalWritePushes(c: Ctx, s: State, q: string)
    requires IsWriteQuery(q)
    requires var (ready, s1) := Prepare(c, s.(lastError := None));
      ready && c.host.engine(q, BytesOf(s1.files, s1.localDbPath.value)).Executed?
    ensures var (ready, s1) := Prepare(c, s.(lastError := None));
      var local := s1.localDbPath.value;
      var e := c.host.engine(q, BytesOf(s1.files, local));
      ExecuteLocal(c, s, q) == (Some([]), Push(c, s1.(files := s1.files[local := Blob(e.after)])).1)
  {
    WriteExcludesRead(q);
  }

  /** A query that is neither SELECT nor PRAGMA loses any rows the engine fetched. */
  lemma LocalDropsRowsOfOtherQueries(c: Ctx, s: State, q: string)
    requires !IsReadQuery(q)
    ensures ExecuteLocal(c, s, q).0.Some? ==> ExecuteLocal(c, s, q).0 == Some([])
  {
  }

  /** Without `prefer_remote`, or with `force_local`, nothing is probed: the query runs locally. */
  lemma RouterLocalOnly(c: Ctx, s: State, q: string, limit: Option<int>, preferRemote: bool)
    requires !preferRemote || c.cfg.forceLocal
    ensures ExecuteQuery(c, s, q, limit, preferRemote) == ExecuteLocal(c, s, ApplyLimit(q, limit))
  {
  }

  /**
   * With remote execution allowed, a device result is returned as is, and
   * local execution happens exactly when the device is unsupported or gave
   * no result; once support is known to be missing, nothing is probed again.
   */
  lemma RouterPrefersRemote(c: Ctx, s: State, q: string, limit: Option<int>)
    requires !c.cfg.forceLocal
    ensures var query := ApplyLimit(q, limit);
      var (supported, s1) := Support(c, s);
      var (r, s2) := ExecuteRemote(c, s1, query);
      && (supported && r.Some? ==> ExecuteQuery(c, s, q, limit, true) == (r, s2))
      && (supported && r.None? ==> ExecuteQuery(c, s, q, limit, true) == ExecuteLocal(c, s2, query))
      && (!supported ==> ExecuteQuery(c, s, q, limit, true) == ExecuteLocal(c, s1, query))
      && (s.runAsSupported == Some(false) ==> ExecuteQuery(c, s, q, limit, true) == ExecuteLocal(c, s, query))
  {
  }

  /** Whichever way it runs, a write query that succeeds yields `[]`, and the LIMIT rewrite never touches it. */
  lemma WriteYieldsEmpty(c: Ctx, s: State, q: string, limit: Option<int>, preferRemote: bool)
    requires IsWriteQuery(q)
    ensures ApplyLimit(q, limit) == q
    ensures ExecuteQuery(c, s, q, limit, preferRemote).0.Some? ==> ExecuteQuery(c, s, q, limit, preferRemote).0 == Some([])
  {
    LimitOnlyTouchesSelect(q, limit);
    WriteExcludesRead(q);
    if preferRemote && !c.cfg.forceLocal {
      var (supported, s1) := Support(c, s);
      if supported {
        RemoteMessages(c, s1, q);
        var (r, s2) := ExecuteRemote(c, s1, q);
        LocalDropsRowsOfOtherQueries(c, s2, q);
      } else {
        LocalDropsRowsOfOtherQueries(c, s1, q);
      }
    } else {
      LocalDropsRowsOfOtherQueries(c, s, q);
    }
  }
}
