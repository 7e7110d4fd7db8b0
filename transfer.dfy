/**
 * Moving the database between device and host: the two pull methods, the
 * WAL/SHM capture, the pull-and-record flow of `pull_database`, and
 * `push_database` with its staging copy.
 */
module Transfer {
  import opened Wrappers
  import opened Text
  import opened Commands
  import opened World
  import opened Locate
  import opened Cache

  function CatArgv(cfg: Config, path: string): Argv { ExecOut(cfg, "cat " + path) }
  function WhichGzip(cfg: Config): Argv { PlainShell(cfg, "which gzip") }
  function GzipArgv(cfg: Config, path: string): Argv { ExecOut(cfg, "gzip -c " + path) }
  function WalProbe(cfg: Config, dbPath: string): Argv { Shell(cfg, "ls " + dbPath + "-wal") }
  function ShmProbe(cfg: Config, dbPath: string): Argv { Shell(cfg, "ls " + dbPath + "-shm") }

  /** `_pull_database_standard`: `cat` the file; on exit code 0 its bytes become the local copy. */
  function Standard(c: Ctx, s: State, dbPath: string, local: string): (bool, State) {
    var (r, s1) := Call(c, s, CatArgv(c.cfg, dbPath));
    if Ok(r) then (true, s1.(files := s1.files[local := Blob(r.out)])) else (false, s1)
  }

  /**
   * `_pull_database_compressed`: without `gzip` on the device, or when
   * `gzip -c` fails, the standard pull is used; a timeout gives false; a
   * failed decompression leaves an emptied local file and gives false.
   */
  function Compressed(c: Ctx, s: State, dbPath: string, local: string): (bool, State) {
    var (w, s1) := Call(c, s, WhichGzip(c.cfg));
    if w.TimedOut? then (false, s1)
    else if w.code != 0 || Strip(w.out) == "" then Standard(c, s1, dbPath, local)
    else
      var (g, s2) := Call(c, s1, GzipArgv(c.cfg, dbPath));
      if g.TimedOut? then (false, s2)
      else if g.code != 0 then Standard(c, s2, dbPath, local)
      else
        var gz := local + ".gz";
        var files := s2.files[gz := Blob(g.out)];
        match c.host.gunzip(g.out)
        case None => (false, s2.(files := files[local := Blob("")] - {gz}))
        case Some(d) => (true, s2.(files := files[local := Blob(d)] - {gz}))
  }

  /** A probe that finds the file: exit code 0 and the suffix in the listing. */
  predicate Listed(r: Reply, suffix: string) {
    Ok(r) && Contains(r.out, suffix)
  }

  /**
   * `_pull_wal_files`: the WAL file is copied when listed, and only then is
   * the SHM file probed; a timeout ends the capture quietly.
   */
  function CaptureWal(c: Ctx, s: State, dbPath: string, local: string): State {
    var (w, s1) := Call(c, s, WalProbe(c.cfg, dbPath));
    if !Listed(w, "-wal") then s1
    else
      var (r, s2) := Call(c, s1, CatArgv(c.cfg, dbPath + "-wal"));
      if r.TimedOut? then s2
      else
        var s3 := if r.code == 0 then s2.(files := s2.files[local + "-wal" := Blob(r.out)]) else s2;
        var (h, s4) := Call(c, s3, ShmProbe(c.cfg, dbPath));
        if !Listed(h, "-shm") then s4
        else
          var (r2, s5) := Call(c, s4, CatArgv(c.cfg, dbPath + "-shm"));
          if Ok(r2) then s5.(files := s5.files[local + "-shm" := Blob(r2.out)]) else s5
  }

  /** The metadata `pull_database` writes after a fresh pull. */
  function Record(cfg: Config, mtime: int, now: string, dbPath: string): map<string, Json> {
    map["mtime" := JInt(mtime), "cached_at" := JStr(now), "db_path" := JStr(dbPath), "package" := JStr(cfg.package)]
  }

  /** Where a fresh pull puts the database: the shared cache file, or a new temporary file. */
  function LocalTarget(c: Ctx): string {
    if c.cfg.useCache then DataPath(c.cfg) else c.host.tempName
  }

  /** The state once the target is chosen: device path and local path recorded, a temporary file created empty. */
  function Target(c: Ctx, s: State, dbPath: string): State {
    var local := LocalTarget(c);
    s.(deviceDbPath := Some(dbPath), localDbPath := Some(local),
       files := if c.cfg.useCache then s.files else s.files[local := Blob("")])
  }

  /** What happens after a fresh pull succeeded: WAL capture, then the metadata record when caching. */
  function AfterPull(c: Ctx, s: State, dbPath: string): State {
    var s1 := CaptureWal(c, s, dbPath, LocalTarget(c));
    if c.cfg.useCache then
      var (m, s2) := Mtime(c, s1);
      s2.(files := s2.files[MetadataPath(c.cfg) := JsonDoc(Record(c.cfg, m, c.host.now, dbPath))])
    else s1
  }

  /** `pull_database(use_compression)` */
  function Pull(c: Ctx, s: State, compress: bool): (bool, State) {
    var (cached, s1) := CachedPath(c, s);
    var (p, s2) := Find(c, s1);
    if cached.Some? then (true, s2.(localDbPath := cached, deviceDbPath := p))
    else if p.None? then (false, s2)
    else FreshPull(c, s2, p.value, compress)
  }

  /** A pull from the device once the database is found: choose the target, transfer, then record. */
  function FreshPull(c: Ctx, s: State, dbPath: string, compress: bool): (bool, State) {
    var s1 := Target(c, s, dbPath);
    var (ok, s2) := if compress then Compressed(c, s1, dbPath, LocalTarget(c)) else Standard(c, s1, dbPath, LocalTarget(c));
    if !ok then (false, s2) else (true, AfterPull(c, s2, dbPath))
  }

  function StagingPath(cfg: Config): string { "/data/local/tmp/" + cfg.db }
  function PushArgv(cfg: Config, local: string): Argv { AdbArgv(cfg, ["push", local, StagingPath(cfg)]) }
  function CopyBack(cfg: Config, device: string): Argv { Shell(cfg, "cp " + StagingPath(cfg) + " " + device) }
  function RemoveStaging(cfg: Config): Argv { PlainShell(cfg, "rm " + StagingPath(cfg)) }

  /**
   * `push_database`: push to the staging path, copy into the app directory,
   * then remove the staging copy whether or not the copy worked.
   */
  function Push(c: Ctx, s: State): (bool, State) {
    if !Truthy(s.localDbPath) || s.localDbPath.value !in s.files then (false, s)
    else if !Truthy(s.deviceDbPath) then (false, s)
    else
      var (p, s1) := Call(c, s, PushArgv(c.cfg, s.localDbPath.value));
      if !Ok(p) then (false, s1)
      else
        var (cp, s2) := Call(c, s1, CopyBack(c.cfg, s.deviceDbPath.value));
        if cp.TimedOut? then (false, s2)
        else (cp.code == 0, Call(c, s2, RemoveStaging(c.cfg)).1)
  }

  // ---------------------------------------------------------------------

  /** Only the local files named here can change, and only these two ways. */
  ghost predicate FilesOnlyAt(s: State, t: State, names: set<string>) {
    t == s.(log := t.log, files := t.files)
    && forall k :: k !in names ==> (k in t.files <==> k in s.files) && (k in t.files ==> t.files[k] == s.files[k])
  }

  /** A successful standard pull leaves the device's bytes in the local file. */
  lemma StandardFacts(c: Ctx, s: State, dbPath: string, local: string)
    ensures var (ok, t) := Standard(c, s, dbPath, local);
      && Sent(s, t) == [CatArgv(c.cfg, dbPath)] && |s.log| <= |t.log|
      && FilesOnlyAt(s, t, {local})
      && (ok <==> Ok(c.respond(s.log, CatArgv(c.cfg, dbPath))))
      && (ok ==> local in t.files && t.files[local] == Blob(c.respond(s.log, CatArgv(c.cfg, dbPath)).out))
      && (!ok ==> t.files == s.files)
  {
    CallStep(c, s, CatArgv(c.cfg, dbPath));
  }

  /**
   * The compressed pull falls back to the standard one exactly when `gzip`
   * is missing or `gzip -c` fails; a decompression failure gives false with
   * the `.gz` file gone; success leaves the decompressed bytes in place.
   */
  lemma CompressedFallbacks(c: Ctx, s: State, dbPath: string, local: string)
    ensures var (ok, t) := Compressed(c, s, dbPath, local);
      var (w, s1) := Call(c, s, WhichGzip(c.cfg));
      var (g, s2) := Call(c, s1, GzipArgv(c.cfg, dbPath));
      && FilesOnlyAt(s, t, {local, local + ".gz"})
      && (w.Done? && (w.code != 0 || Strip(w.out) == "") ==> (ok, t) == Standard(c, s1, dbPath, local))
      && (Ok(w) && Strip(w.out) != "" && g.Done? && g.code != 0 ==> (ok, t) == Standard(c, s2, dbPath, local))
      && (Ok(w) && Strip(w.out) != "" && Ok(g) ==>
            && local + ".gz" !in t.files
            && (c.host.gunzip(g.out).None? ==> !ok && t.files[local] == Blob(""))
            && (c.host.gunzip(g.out).Some? ==> ok && t.files[local] == Blob(c.host.gunzip(g.out).value)))
      && (ok ==> local in t.files)
  {
    var (w, s1) := Call(c, s, WhichGzip(c.cfg));
    var (g, s2) := Call(c, s1, GzipArgv(c.cfg, dbPath));
    if w.Done? && (w.code != 0 || Strip(w.out) == "") {
      StandardFacts(c, s1, dbPath, local);
    } else if w.Done? && g.Done? && g.code != 0 {
      StandardFacts(c, s2, dbPath, local);
    } else if w.Done? && Ok(g) {
      assert |local + ".gz"| == |local| + 3;
      assert local != local + ".gz";
    }
  }

  /**
   * The SHM file is probed only once the WAL file was listed; the capture
   * writes nothing but the two side files.
   */
  lemma ShmOnlyAfterWal(c: Ctx, s: State, dbPath: string, local: string)
    ensures var t := CaptureWal(c, s, dbPath, local);
      var w := c.respond(s.log, WalProbe(c.cfg, dbPath));
      && FilesOnlyAt(s, t, {local + "-wal", local + "-shm"})
      && |s.log| < |t.log| && Sent(s, t)[0] == WalProbe(c.cfg, dbPath)
      && (!Listed(w, "-wal") ==> Sent(s, t) == [WalProbe(c.cfg, dbPath)] && t.files == s.files)
      && (local + "-shm" in t.files && local + "-shm" !in s.files ==> Listed(w, "-wal"))
  {
    var a1 := WalProbe(c.cfg, dbPath);
    var (w, s1) := Call(c, s, a1);
    CallStep(c, s, a1);
    if Listed(w, "-wal") {
      var a2 := CatArgv(c.cfg, dbPath + "-wal");
      var (r, s2) := Call(c, s1, a2);
      CallStep(c, s1, a2);
      Chain(s, s1, s2);
      if !r.TimedOut? {
        var s3 := if r.code == 0 then s2.(files := s2.files[local + "-wal" := Blob(r.out)]) else s2;
        var a3 := ShmProbe(c.cfg, dbPath);
        var (h, s4) := Call(c, s3, a3);
        CallStep(c, s3, a3);
        assert s3.log == s2.log;
        assert Sent(s, s4) == Sent(s, s2) + [a3];
        if Listed(h, "-shm") {
          var a4 := CatArgv(c.cfg, dbPath + "-shm");
          var (r2, s5) := Call(c, s4, a4);
          CallStep(c, s4, a4);
          assert Sent(s, s5) == Sent(s, s4) + [a4];
        }
      }
    }
  }

  /**
   * Push sends nothing unless there is a local file and a device path;
   * once the copy into the app directory answers, the staging copy is
   * removed, and success means all three commands went out in order.
   */
  lemma PushStagingCleanup(c: Ctx, s: State)
    ensures var (ok, t) := Push(c, s);
      && OnlyLog(s, t)
      && (!Truthy(s.localDbPath) || s.localDbPath.value !in s.files || !Truthy(s.deviceDbPath) ==> !ok && t == s)
      && (Truthy(s.localDbPath) && s.localDbPath.value in s.files && Truthy(s.deviceDbPath) ==>
            var a1 := PushArgv(c.cfg, s.localDbPath.value);
            var a2 := CopyBack(c.cfg, s.deviceDbPath.value);
            var cp := c.respond(s.log + [a1], a2);
            && (!Ok(c.respond(s.log, a1)) ==> !ok && Sent(s, t) == [a1])
            && (Ok(c.respond(s.log, a1)) && cp.TimedOut? ==> !ok && Sent(s, t) == [a1, a2])
            && (Ok(c.respond(s.log, a1)) && cp.Done? ==> (ok <==> cp.code == 0) && Sent(s, t) == [a1, a2, RemoveStaging(c.cfg)]))
  {
    if Truthy(s.localDbPath) && s.localDbPath.value in s.files && Truthy(s.deviceDbPath) {
      var a1 := PushArgv(c.cfg, s.localDbPath.value);
      var (p, s1) := Call(c, s, a1);
      CallStep(c, s, a1);
      if Ok(p) {
        var a2 := CopyBack(c.cfg, s.deviceDbPath.value);
        var (cp, s2) := Call(c, s1, a2);
        CallStep(c, s1, a2);
        Chain(s, s1, s2);
        if !cp.TimedOut? {
          var a3 := RemoveStaging(c.cfg);
          var s3 := Call(c, s2, a3).1;
          CallStep(c, s2, a3);
          Chain(s, s2, s3);
        }
      }
    }
  }

  /** The side files never clash with the database file itself. */
  lemma SideFilesApart(local: string)
    ensures local != local + "-wal" && local != local + "-shm" && local != local + ".gz"
  {
    assert |local + "-wal"| > |local| && |local + "-shm"| > |local| && |local + ".gz"| > |local|;
  }

  /** What follows a fresh pull keeps the pulled file and, when caching, records the fingerprint. */
  lemma AfterPullFacts(c: Ctx, s: State, dbPath: string)
    ensures var t := AfterPull(c, s, dbPath);
      && t.localDbPath == s.localDbPath && t.deviceDbPath == s.deviceDbPath
      && (LocalTarget(c) in s.files ==> LocalTarget(c) in t.files)
      && (c.cfg.useCache ==>
            LoadMetadata(t.files, MetadataPath(c.cfg))
              == Record(c.cfg, Mtime(c, CaptureWal(c, s, dbPath, LocalTarget(c))).0, c.host.now, dbPath))
  {
    var local := LocalTarget(c);
    var s1 := CaptureWal(c, s, dbPath, local);
    ShmOnlyAfterWal(c, s, dbPath, local);
    SideFilesApart(local);
    if c.cfg.useCache {
      MtimeSources(c, s1);
      var (m, s2) := Mtime(c, s1);
      MetadataApart(c.cfg);
      assert LoadMetadata(AfterPull(c, s, dbPath).files, MetadataPath(c.cfg)) == Record(c.cfg, m, c.host.now, dbPath);
    }
  }

  /** Pulling reports through its result only: the recorded error is left as it was. */
  lemma PullKeepsError(c: Ctx, s: State, compress: bool)
    ensures Pull(c, s, compress).1.lastError == s.lastError
  {
    CacheFreshness(c, s);
    var (cached, s1) := CachedPath(c, s);
    var _ := FindSendsProbes(c, s1, Locations(c.cfg));
    var (p, s2) := Find(c, s1);
    if cached.None? && p.Some? {
      var local := LocalTarget(c);
      var s3 := Target(c, s2, p.value);
      if compress {
        CompressedFallbacks(c, s3, p.value, local);
      } else {
        StandardFacts(c, s3, p.value, local);
      }
      var (ok, s4) := if compress then Compressed(c, s3, p.value, local) else Standard(c, s3, p.value, local);
      if ok {
        ShmOnlyAfterWal(c, s4, p.value, local);
        MtimeSources(c, CaptureWal(c, s4, p.value, local));
      }
    }
  }

  /**
   * A pull that reports success leaves a local copy at `localDbPath`. A
   * fresh pull with caching on puts it in the shared data file and records
   * beside it the device path and the fingerprint taken after the side
   * files were captured; without caching it uses a temporary file.
   * A transfer that fails after the database was found still leaves
   * `localDbPath` pointing at the chosen target.
   */
  lemma PullOutcome(c: Ctx, s: State, compress: bool)
    ensures var (ok, t) := Pull(c, s, compress);
      && (ok ==> t.localDbPath.Some? && t.localDbPath.value in t.files)
      && (!ok && Find(c, CachedPath(c, s).1).0.None? ==> t.localDbPath == s.localDbPath)
      && (!ok && Find(c, CachedPath(c, s).1).0.Some? ==> t.localDbPath == Some(LocalTarget(c)))
      && (ok && CachedPath(c, s).0.Some? ==> t.localDbPath == Some(DataPath(c.cfg)))
      && (ok && CachedPath(c, s).0.None? ==> t.localDbPath == Some(LocalTarget(c)) && t.deviceDbPath.Some?)
      && (ok && CachedPath(c, s).0.None? && c.cfg.useCache ==>
            var (p, s2) := Find(c, CachedPath(c, s).1);
            var s3 := Target(c, s2, p.value);
            var s4 := if compress then Compressed(c, s3, p.value, LocalTarget(c)).1 else Standard(c, s3, p.value, LocalTarget(c)).1;
            && p.Some? && t.deviceDbPath == p
            && LoadMetadata(t.files, MetadataPath(c.cfg))
                 == Record(c.cfg, Mtime(c, CaptureWal(c, s4, p.value, LocalTarget(c))).0, c.host.now, p.value))
  {
    CacheFreshness(c, s);
    var (cached, s1) := CachedPath(c, s);
    var _ := FindSendsProbes(c, s1, Locations(c.cfg));
    var (p, s2) := Find(c, s1);
    if cached.None? && p.Some? {
      var local := LocalTarget(c);
      var s3 := Target(c, s2, p.value);
      if compress {
        CompressedFallbacks(c, s3, p.value, local);
      } else {
        StandardFacts(c, s3, p.value, local);
      }
      var (ok, s4) := if compress then Compressed(c, s3, p.value, local) else Standard(c, s3, p.value, local);
      if ok {
        AfterPullFacts(c, s4, p.value);
      }
    }
  }

  /**
   * What a fresh pull records is what the next freshness check reads: with
   * that record and the data file in place, the cached copy is used exactly
   * when the device's fingerprint is unknown or still the recorded one.
   */
  lemma RecordedCacheIsUsed(c: Ctx, s: State, m: int, p: string)
    requires c.cfg.useCache && !c.cfg.forcePull
    requires LoadMetadata(s.files, MetadataPath(c.cfg)) == Record(c.cfg, m, c.host.now, p)
    requires DataPath(c.cfg) in s.files
    ensures CachedPath(c, s).0 == Some(DataPath(c.cfg)) <==> Mtime(c, s).0 == 0 || Mtime(c, s).0 == m
  {
    CacheFreshness(c, s);
    var meta := Record(c.cfg, m, c.host.now, p);
    assert "mtime" in meta;
    assert Get(meta, "mtime", JInt(0)) == JInt(m);
  }
}
