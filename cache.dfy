/**
 * The local cache: the freshness decision of `get_cached_db_path`, and
 * `cleanup` and `clear_cache`.
 */
module Cache {
  import opened Wrappers
  import opened Text
  import opened Commands
  import opened World
  import opened Locate

  /** Python truthiness of an optional path. */
  predicate Truthy(p: Option<string>) {
    p.Some? && p.value != ""
  }

  /**
   * `get_cached_db_path`: the cached copy is used when caching is on, no
   * re-pull is forced, metadata exists, the data file exists, and the
   * device's fingerprint is unknown (0) or equals the recorded `mtime`.
   */
  function CachedPath(c: Ctx, s: State): (Option<string>, State) {
    if !c.cfg.useCache || c.cfg.forcePull then (None, s)
    else
      var meta := LoadMetadata(s.files, MetadataPath(c.cfg));
      if meta == map[] then (None, s)
      else if DataPath(c.cfg) !in s.files then (None, s)
      else
        var (m, s1) := Mtime(c, s);
        if m == 0 then (Some(DataPath(c.cfg)), s1)
        else if Get(meta, "mtime", JInt(0)) == JInt(m) then (Some(DataPath(c.cfg)), s1)
        else (None, s1)
  }

  /** `cleanup`: the local copy is deleted unless it is a cached file kept for later. */
  function Cleanup(c: Ctx, s: State): State {
    if Truthy(s.localDbPath) && s.localDbPath.value in s.files then
      if c.cfg.useCache && Contains(s.localDbPath.value, c.cfg.cacheDir) then s
      else s.(files := s.files - {s.localDbPath.value})
    else s
  }

  /** `clear_cache`: both cache files go, if present. */
  function ClearCache(c: Ctx, s: State): (bool, State) {
    (true, s.(files := s.files - {MetadataPath(c.cfg), DataPath(c.cfg)}))
  }

  // ---------------------------------------------------------------------

  /**
   * The cached path is returned exactly under the five conditions above,
   * and it is always the shared data file; when one of the first four
   * fails, the device is not asked anything.
   */
  lemma CacheFreshness(c: Ctx, s: State)
    ensures var (r, t) := CachedPath(c, s);
      var meta := LoadMetadata(s.files, MetadataPath(c.cfg));
      var m := Mtime(c, s).0;
      && OnlyLog(s, t)
      && (r.Some? <==>
            && c.cfg.useCache && !c.cfg.forcePull && meta != map[] && DataPath(c.cfg) in s.files
            && (m == 0 || Get(meta, "mtime", JInt(0)) == JInt(m)))
      && (r.Some? ==> r.value == DataPath(c.cfg))
      && (!c.cfg.useCache || c.cfg.forcePull || meta == map[] || DataPath(c.cfg) !in s.files ==> t == s)
  {
    MtimeSources(c, s);
  }

  /**
   * A local copy inside the cache directory survives cleanup while caching
   * is on; any other existing local copy is deleted, and nothing else.
   */
  lemma CleanupKeepsCache(c: Ctx, s: State)
    ensures var t := Cleanup(c, s);
      && t == s.(files := t.files)
      && (c.cfg.useCache && s.localDbPath == Some(DataPath(c.cfg)) ==> t == s)
      && (Truthy(s.localDbPath) && !Contains(s.localDbPath.value, c.cfg.cacheDir) ==>
            t.files == s.files - {s.localDbPath.value})
      && (Truthy(s.localDbPath) && s.localDbPath.value in s.files ==>
            (t.files == s.files - {s.localDbPath.value} <==>
               !(c.cfg.useCache && Contains(s.localDbPath.value, c.cfg.cacheDir))))
  {
    DataPathInCache(c.cfg);
  }

  /**
   * Clearing removes the metadata and data files and nothing else, is
   * idempotent, and leaves nothing for the next freshness check to use.
   */
  lemma ClearCacheEffect(c: Ctx, s: State)
    ensures var (ok, t) := ClearCache(c, s);
      && ok && t == s.(files := t.files)
      && MetadataPath(c.cfg) !in t.files && DataPath(c.cfg) !in t.files
      && (forall k :: k != MetadataPath(c.cfg) && k != DataPath(c.cfg) ==>
            (k in t.files <==> k in s.files) && (k in t.files ==> t.files[k] == s.files[k]))
      && ClearCache(c, t) == (true, t)
      && CachedPath(c, t) == (None, t)
  {
    var t := ClearCache(c, s).1;
    assert t.files - {MetadataPath(c.cfg), DataPath(c.cfg)} == t.files;
  }
}
