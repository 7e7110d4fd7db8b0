/**
 * `SQLiteADBQueryTool` as an object: its instance fields, the commands it
 * has sent and the local files it has written are fields that its methods
 * update in place. Each method is proved to end in the state, and return
 * the value, that the functional model of the other modules prescribes.
 */
module QueryTool {
  import opened Wrappers
  import opened Text
  import opened Commands
  import opened World
  import opened Devices
  import opened PipeTable
  import opened Locate
  import opened Provision
  import opened Queries
  import opened Remote
  import opened Cache
  import opened Transfer
  import opened Router

  class Tool {
    const cfg: Config
    const host: Host
    const respond: Responder

    var runAsSupported: Option<bool>
    var sqlitePath: string
    var lastError: Option<string>
    var localDbPath: Option<string>
    var deviceDbPath: Option<string>
    /** Every bridge command sent so far, oldest first. */
    var log: seq<Argv>
    /** The local file system, by full path. */
    var files: map<string, LocalFile>

    function Context(): Ctx {
      Ctx(cfg, host, respond)
    }

    /** The object's state as a value of the functional model. */
    function Snapshot(): State
      reads this
    {
      State(runAsSupported, sqlitePath, lastError, localDbPath, deviceDbPath, log, files)
    }

    /**
     * `__init__`: nothing known about run-as support, no error, no local or
     * device path, and the `sqlite3` path at its `getattr` default.
     */
    constructor(cfg: Config, host: Host, respond: Responder, files: map<string, LocalFile>)
      ensures Context() == Ctx(cfg, host, respond)
      ensures Snapshot() == State(None, AppBinary, None, None, None, [], files)
    {
      this.cfg := cfg;
      this.host := host;
      this.respond := respond;
      runAsSupported := None;
      sqlitePath := AppBinary;
      lastError := None;
      localDbPath := None;
      deviceDbPath := None;
      log := [];
      this.files := files;
    }

    /** One `subprocess.run` on the bridge. */
    method Run(argv: Argv) returns (r: Reply)
      modifies this
      ensures (r, Snapshot()) == Call(Context(), old(Snapshot()), argv)
    {
      r := respond(log, argv);
      log := log + [argv];
    }

    /** `check_adb_connection`; `adb devices` goes to the default server, without a serial. */
    method CheckAdbConnection() returns (ok: bool)
      modifies this
      ensures var (r, t) := Call(Context(), old(Snapshot()), ["adb", "devices"]);
        ok == AdbConnected(r, cfg.serial) && Snapshot() == t
    {
      var r := Run(["adb", "devices"]);
      ok := AdbConnected(r, cfg.serial);
    }

    /** `find_database_path`: the probe loop, stopping at the first hit or timeout. */
    method FindDatabasePath() returns (p: Option<string>)
      modifies this
      ensures (p, Snapshot()) == Find(Context(), old(Snapshot()))
    {
      var locs := Locations(cfg);
      var i := 0;
      while i < |locs|
        invariant 0 <= i <= |locs|
        invariant Find(Context(), old(Snapshot())) == FindFrom(Context(), Snapshot(), locs[i..])
        decreases |locs| - i
      {
        var r := Run(Probe(cfg, locs[i]));
        assert locs[i..][0] == locs[i] && locs[i..][1..] == locs[i + 1..];
        if r.TimedOut? {
          return None;
        }
        if Hit(cfg, r) {
          return Some(locs[i]);
        }
        i := i + 1;
      }
      p := None;
    }

    /** `get_remote_db_mtime` */
    method GetRemoteDbMtime() returns (m: int)
      modifies this
      ensures (m, Snapshot()) == Mtime(Context(), old(Snapshot()))
    {
      var p := FindDatabasePath();
      if p.None? {
        return 0;
      }
      var st := Run(StatArgv(cfg, p.value));
      if st.TimedOut? {
        return 0;
      }
      if st.code == 0 {
        return ParseInt(Strip(st.out)).GetOr(0);
      }
      var ls := Run(LsArgv(cfg, p.value));
      m := if Ok(ls) then host.lsHash(ls.out) else 0;
    }

    /** Writing a local file (`open(path, 'wb')` and friends). */
    method WriteFile(path: string, f: LocalFile)
      modifies this
      ensures Snapshot() == old(Snapshot()).(files := old(files)[path := f])
    {
      files := files[path := f];
    }

    /** `os.unlink`, for a file known to exist or not. */
    method RemoveFile(path: string)
      modifies this
      ensures Snapshot() == old(Snapshot()).(files := old(files) - {path})
    {
      files := files - {path};
    }

    /** `save_cache_metadata` */
    method SaveCacheMetadata(m: map<string, Json>)
      modifies this
      ensures Snapshot() == old(Snapshot()).(files := old(files)[MetadataPath(cfg) := JsonDoc(m)])
      ensures LoadMetadata(files, MetadataPath(cfg)) == m
    {
      WriteFile(MetadataPath(cfg), JsonDoc(m));
    }

    /** `get_cached_db_path` */
    method GetCachedDbPath() returns (p: Option<string>)
      modifies this
      ensures (p, Snapshot()) == CachedPath(Context(), old(Snapshot()))
    {
      if !cfg.useCache || cfg.forcePull {
        return None;
      }
      var meta := LoadMetadata(files, MetadataPath(cfg));
      if meta == map[] {
        return None;
      }
      if DataPath(cfg) !in files {
        return None;
      }
      var m := GetRemoteDbMtime();
      if m == 0 {
        return Some(DataPath(cfg));
      }
      if Get(meta, "mtime", JInt(0)) == JInt(m) {
        return Some(DataPath(cfg));
      }
      p := None;
    }

    /** One pass of the system-path loop of `ensure_sqlite3_on_device`; `None` goes on to the next path. */
    method TrySystemPath(path: string) returns (o: Option<Outcome>)
      modifies this
      ensures (o, Snapshot()) == Provision.TrySystemPath(Context(), old(Snapshot()), path)
    {
      var r := Run(SysProbe(cfg, path));
      if r.TimedOut? {
        return Some(Raised);
      }
      if !VersionOk(r) {
        return None;
      }
      var cp := Run(CopyIn(cfg, path));
      if cp.TimedOut? {
        return Some(Raised);
      }
      if cp.code != 0 {
        return Some(Returned(Some(path)));
      }
      var ch := Run(ChmodApp(cfg));
      if ch.TimedOut? {
        return Some(Raised);
      }
      var v := Run(AppProbe(cfg));
      if v.TimedOut? {
        return Some(Raised);
      }
      o := if v.code == 0 then Some(Returned(Some(AppBinary))) else None;
    }

    /** The bundled-binary stage of `ensure_sqlite3_on_device`. */
    method InstallBundled() returns (p: Option<string>)
      modifies this
      ensures (p, Snapshot()) == BundledStage(Context(), old(Snapshot()))
    {
      if !cfg.bundledPresent {
        return None;
      }
      var push := Run(PushBundled(cfg));
      if !Ok(push) {
        return None;
      }
      var ch := Run(ChmodStaged(cfg));
      if ch.TimedOut? {
        return None;
      }
      var v := Run(VerifyStaged(cfg));
      if !VersionOk(v) {
        return None;
      }
      var cp := Run(CopyIn(cfg, StagedBinary));
      if cp.TimedOut? {
        return None;
      }
      if cp.code != 0 {
        return Some(StagedBinary);
      }
      var ch2 := Run(ChmodApp(cfg));
      p := if ch2.TimedOut? then None else Some(AppBinary);
    }

    /** `ensure_sqlite3_on_device`: app directory, then the system paths in order, then the bundled binary. */
    method EnsureSqlite3() returns (o: Outcome)
      modifies this
      ensures (o, Snapshot()) == Ensure(Context(), old(Snapshot()))
    {
      var r := Run(AppProbe(cfg));
      if r.TimedOut? {
        return Raised;
      }
      if VersionOk(r) {
        return Returned(Some(AppBinary));
      }
      ghost var s1 := Snapshot();
      var i := 0;
      while i < |SystemPaths|
        invariant 0 <= i <= |SystemPaths|
        invariant SystemStage(Context(), s1, SystemPaths) == SystemStage(Context(), Snapshot(), SystemPaths[i..])
        decreases |SystemPaths| - i
      {
        assert SystemPaths[i..][0] == SystemPaths[i] && SystemPaths[i..][1..] == SystemPaths[i + 1..];
        var step := TrySystemPath(SystemPaths[i]);
        if step.Some? {
          return step.value;
        }
        i := i + 1;
      }
      var b := InstallBundled();
      o := Returned(b);
    }

    /** `check_run_as_support`, memoized in `runAsSupported`. */
    method CheckRunAsSupport() returns (ok: bool)
      modifies this
      ensures (ok, Snapshot()) == Support(Context(), old(Snapshot()))
    {
      if runAsSupported.Some? {
        return runAsSupported.value;
      }
      var p := FindDatabasePath();
      if p.None? {
        runAsSupported := Some(false);
        return false;
      }
      var e := Run(EchoArgv(cfg));
      if !EchoOk(e) {
        runAsSupported := Some(false);
        return false;
      }
      var o := EnsureSqlite3();
      if o.Raised? || o.path.None? {
        runAsSupported := Some(false);
        return false;
      }
      sqlitePath := o.path.value;
      runAsSupported := Some(true);
      ok := true;
    }

    /** `_execute_remote_query_fallback`: header and pipe-separated output, parsed by the row loop. */
    method ExecuteRemoteFallback(q: string, dbPath: string) returns (rows: Option<seq<Row>>)
      modifies this
      ensures (rows, Snapshot()) == Fallback(Context(), old(Snapshot()), q, dbPath)
    {
      var r := Run(Shell(cfg, FallbackCommand(sqlitePath, dbPath, q)));
      if !Ok(r) {
        return None;
      }
      var table := ParseTable(r.out);
      rows := Some(table);
    }

    /** `execute_remote_query` */
    method ExecuteRemoteQuery(q: string) returns (rows: Option<seq<Row>>)
      modifies this
      ensures (rows, Snapshot()) == ExecuteRemote(Context(), old(Snapshot()), q)
    {
      lastError := None;
      var p := FindDatabasePath();
      if p.None? {
        lastError := Some(NoPathMessage);
        return None;
      }
      var r := Run(Shell(cfg, QueryCommand(sqlitePath, p.value, q)));
      if r.TimedOut? {
        lastError := Some(TimeoutMessage);
        return None;
      }
      if r.code != 0 {
        match ClassifyFailure(r.out, r.err)
        case NotDebuggable =>
          return None;
        case Failed(m) =>
          lastError := Some(m);
          return None;
      }
      if IsWriteQuery(q) {
        return Some([]);
      }
      rows := ReadRemoteOutput(q, p.value, Strip(r.out));
    }

    /** How `execute_remote_query` reads the stripped output of a successful read. */
    method ReadRemoteOutput(q: string, dbPath: string, out: string) returns (rows: Option<seq<Row>>)
      modifies this
      ensures (rows, Snapshot()) == ReadOutcome(Context(), old(Snapshot()), q, dbPath, out)
    {
      if out == "" {
        return if IsReadQuery(q) then Some([]) else None;
      }
      match host.parseJson(out)
      case NotJson =>
        rows := ExecuteRemoteFallback(q, dbPath);
      case JsonList(list) =>
        rows := Some(list);
      case JsonOtherValue =>
        rows := Some([]);
    }

    /** `_pull_database_standard`, into the local path already chosen. */
    method PullStandard(dbPath: string) returns (ok: bool)
      requires localDbPath.Some?
      modifies this
      ensures (ok, Snapshot()) == Standard(Context(), old(Snapshot()), dbPath, old(localDbPath.value))
    {
      var r := Run(CatArgv(cfg, dbPath));
      if !Ok(r) {
        return false;
      }
      WriteFile(localDbPath.value, Blob(r.out));
      ok := true;
    }

    /** `_pull_database_compressed`, into the local path already chosen. */
    method PullCompressed(dbPath: string) returns (ok: bool)
      requires localDbPath.Some?
      modifies this
      ensures (ok, Snapshot()) == Compressed(Context(), old(Snapshot()), dbPath, old(localDbPath.value))
    {
      var w := Run(WhichGzip(cfg));
      if w.TimedOut? {
        return false;
      }
      if w.code != 0 || Strip(w.out) == "" {
        ok := PullStandard(dbPath);
        return;
      }
      var g := Run(GzipArgv(cfg, dbPath));
      if g.TimedOut? {
        return false;
      }
      if g.code != 0 {
        ok := PullStandard(dbPath);
        return;
      }
      var local := localDbPath.value;
      var gz := local + ".gz";
      WriteFile(gz, Blob(g.out));
      match host.gunzip(g.out)
      case None =>
        WriteFile(local, Blob(""));
        RemoveFile(gz);
        ok := false;
      case Some(d) =>
        WriteFile(local, Blob(d));
        RemoveFile(gz);
        ok := true;
    }

    /** `_pull_wal_files`, next to the local path already chosen. */
    method PullWalFiles(dbPath: string)
      requires localDbPath.Some?
      modifies this
      ensures Snapshot() == CaptureWal(Context(), old(Snapshot()), dbPath, old(localDbPath.value))
    {
      var local := localDbPath.value;
      var w := Run(WalProbe(cfg, dbPath));
      if !Transfer.Listed(w, "-wal") {
        return;
      }
      var r := Run(CatArgv(cfg, dbPath + "-wal"));
      if r.TimedOut? {
        return;
      }
      if r.code == 0 {
        WriteFile(local + "-wal", Blob(r.out));
      }
      var h := Run(ShmProbe(cfg, dbPath));
      if !Transfer.Listed(h, "-shm") {
        return;
      }
      var r2 := Run(CatArgv(cfg, dbPath + "-shm"));
      if Ok(r2) {
        WriteFile(local + "-shm", Blob(r2.out));
      }
    }

    /**
     * `pull_database(use_compression)`. On the cached path the device path
     * is looked up before the local path is set; the lookup reads and
     * changes neither, so the order does not matter.
     */
    method PullDatabase(compress: bool) returns (ok: bool)
      modifies this
      ensures (ok, Snapshot()) == Pull(Context(), old(Snapshot()), compress)
    {
      var cached := GetCachedDbPath();
      var p := FindDatabasePath();
      if cached.Some? {
        localDbPath := cached;
        deviceDbPath := p;
        return true;
      }
      if p.None? {
        return false;
      }
      ok := PullFresh(p.value, compress);
    }

    /** The transfer part of `pull_database`, once the device path is known. */
    method PullFresh(dbPath: string, compress: bool) returns (ok: bool)
      modifies this
      ensures (ok, Snapshot()) == FreshPull(Context(), old(Snapshot()), dbPath, compress)
    {
      deviceDbPath := Some(dbPath);
      var local := LocalTarget(Context());
      localDbPath := Some(local);
      if !cfg.useCache {
        WriteFile(local, Blob(""));
      }
      if compress {
        ok := PullCompressed(dbPath);
      } else {
        ok := PullStandard(dbPath);
      }
      if !ok {
        return;
      }
      RecordPull(dbPath);
    }

    /** After a successful transfer: the WAL and SHM files, then the cache metadata. */
    method RecordPull(dbPath: string)
      requires localDbPath == Some(LocalTarget(Context()))
      modifies this
      ensures Snapshot() == AfterPull(Context(), old(Snapshot()), dbPath)
    {
      PullWalFiles(dbPath);
      if cfg.useCache {
        var m := GetRemoteDbMtime();
        SaveCacheMetadata(Record(cfg, m, host.now, dbPath));
      }
    }

    /** `push_database`: staging push, copy into the app directory, staging removal. */
    method PushDatabase() returns (ok: bool)
      modifies this
      ensures (ok, Snapshot()) == Push(Context(), old(Snapshot()))
    {
      if !Truthy(localDbPath) || localDbPath.value !in files {
        return false;
      }
      if !Truthy(deviceDbPath) {
        return false;
      }
      var push := Run(PushArgv(cfg, localDbPath.value));
      if !Ok(push) {
        return false;
      }
      var cp := Run(CopyBack(cfg, deviceDbPath.value));
      if cp.TimedOut? {
        return false;
      }
      var _ := Run(RemoveStaging(cfg));
      ok := cp.code == 0;
    }

    /** `execute_query_local` */
    method ExecuteQueryLocal(q: string) returns (rows: Option<seq<Row>>)
      modifies this
      ensures (rows, Snapshot()) == ExecuteLocal(Context(), old(Snapshot()), q)
    {
      lastError := None;
      var ready := PrepareCopy();
      if !ready {
        lastError := Some(PullFailedMessage);
        return None;
      }
      rows := RunLocal(q);
    }

    /** The local copy `execute_query_local` runs on: the one at hand, else a compressed pull. */
    method PrepareCopy() returns (ready: bool)
      modifies this
      ensures (ready, Snapshot()) == Prepare(Context(), old(Snapshot()))
    {
      if Truthy(localDbPath) && localDbPath.value in files {
        return true;
      }
      ready := PullDatabase(true);
    }

    /** The statement run on the ready local copy, committed, and pushed when it writes. */
    method RunLocal(q: string) returns (rows: Option<seq<Row>>)
      requires localDbPath.Some?
      modifies this
      ensures (rows, Snapshot()) == RunOnCopy(Context(), old(Snapshot()), q)
    {
      var local := localDbPath.value;
      match host.engine(q, BytesOf(files, local))
      case SqlError(m) =>
        lastError := Some(m);
        rows := None;
      case Executed(fetched, after) =>
        WriteFile(local, Blob(after));
        if IsReadQuery(q) {
          return Some(fetched);
        }
        if IsWriteQuery(q) {
          var _ := PushDatabase();
        }
        rows := Some([]);
    }

    /** `execute_query` */
    method ExecuteQuery(q: string, limit: Option<int>, preferRemote: bool) returns (rows: Option<seq<Row>>)
      modifies this
      ensures (rows, Snapshot()) == Router.ExecuteQuery(Context(), old(Snapshot()), q, limit, preferRemote)
    {
      var query := ApplyLimit(q, limit);
      if preferRemote && !cfg.forceLocal {
        var supported := CheckRunAsSupport();
        if supported {
          rows := ExecuteRemoteQuery(query);
          if rows.Some? {
            return;
          }
        }
      }
      rows := ExecuteQueryLocal(query);
    }

    /** `cleanup` */
    method Cleanup()
      modifies this
      ensures Snapshot() == Cache.Cleanup(Context(), old(Snapshot()))
    {
      if Truthy(localDbPath) && localDbPath.value in files {
        if cfg.useCache && Contains(localDbPath.value, cfg.cacheDir) {
          return;
        }
        RemoveFile(localDbPath.value);
      }
    }

    /** `clear_cache` */
    method ClearCache() returns (ok: bool)
      modifies this
      ensures (ok, Snapshot()) == Cache.ClearCache(Context(), old(Snapshot()))
    {
      if MetadataPath(cfg) in files {
        RemoveFile(MetadataPath(cfg));
      }
      if DataPath(cfg) in files {
        RemoveFile(DataPath(cfg));
      }
      assert files == old(files) - {MetadataPath(cfg), DataPath(cfg)};
      ok := true;
    }
  }
}
