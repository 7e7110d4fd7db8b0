/**
 * The tool's configuration and the strings it derives from it: the `run-as`
 * prefix, the `adb` argument vector, and the names of the two cache files.
 */
module Commands {
  import opened Wrappers
  import opened Text

  /** The constructor arguments of the tool, plus the two facts it reads from its surroundings. */
  datatype Config = Config(
    package: string,
    db: string,
    userId: Option<int>,
    serial: Option<string>,
    forceLocal: bool,
    useCache: bool,
    forcePull: bool,
    cacheDir: string,         // `<tempdir>/adb_sqlite_cache`
    bundledPresent: bool,     // whether `sqlite3-arm64` sits next to the script
    bundledPath: string)

  /** Python truthiness of `device_serial`: given and non-empty. */
  predicate SerialGiven(cfg: Config) {
    cfg.serial.Some? && cfg.serial.value != ""
  }

  /** Python truthiness of `user_id`: given and nonzero. */
  predicate UserGiven(cfg: Config) {
    cfg.userId.Some? && cfg.userId.value != 0
  }

  /** ` --user N` whenever a user id is given at all, 0 included. */
  function UserFlag(cfg: Config): string {
    match cfg.userId
    case None => ""
    case Some(u) => " --user " + IntToString(u)
  }

  /** `_get_run_as_cmd`: the command, when non-empty, follows the package and user flag. */
  function RunAs(cfg: Config, command: string): string {
    if command != "" then "run-as " + cfg.package + UserFlag(cfg) + " " + command
    else "run-as " + cfg.package + UserFlag(cfg)
  }

  /** `_get_adb_cmd`: `adb`, then `-s SERIAL` when a serial is given, then the command. */
  function AdbArgv(cfg: Config, cmd: seq<string>): (r: seq<string>)
    ensures |r| > |cmd| && r[0] == "adb" && r[|r| - |cmd|..] == cmd
    ensures |r| == |cmd| + (if SerialGiven(cfg) then 3 else 1)
    ensures SerialGiven(cfg) ==> r[1..3] == ["-s", cfg.serial.value]
    ensures !SerialGiven(cfg) ==> r == ["adb"] + cmd
  {
    ["adb"] + (if SerialGiven(cfg) then ["-s", cfg.serial.value] else []) + cmd
  }

  /** `adb shell run-as <package> [--user N] <command>` */
  function Shell(cfg: Config, command: string): seq<string> {
    AdbArgv(cfg, ["shell", RunAs(cfg, command)])
  }

  /** `adb shell <command>` without `run-as`. */
  function PlainShell(cfg: Config, command: string): seq<string> {
    AdbArgv(cfg, ["shell", command])
  }

  /** `adb exec-out run-as <package> [--user N] <command>` */
  function ExecOut(cfg: Config, command: string): seq<string> {
    AdbArgv(cfg, ["exec-out", RunAs(cfg, command)])
  }

  function UserSuffix(cfg: Config): string {
    if UserGiven(cfg) then "_user" + IntToString(cfg.userId.value) else ""
  }

  /** The serial with `:` and then `.` replaced by `_`, behind a `_`. */
  function DeviceSuffix(cfg: Config): string {
    if SerialGiven(cfg) then "_" + ReplaceChar(ReplaceChar(cfg.serial.value, ':', "_"), '.', "_") else ""
  }

  /** `cache_metadata_file`: one per package, database, user and device. */
  function MetadataPath(cfg: Config): string {
    cfg.cacheDir + "/" + cfg.package + "_" + cfg.db + UserSuffix(cfg) + DeviceSuffix(cfg) + ".json"
  }

  /** The cached database file: one per package and database only. */
  function DataPath(cfg: Config): string {
    cfg.cacheDir + "/" + cfg.package + "_" + cfg.db
  }

  // ---------------------------------------------------------------------

  /** The command always comes last, after the bare `run-as` prefix and a space. */
  lemma RunAsCommandLast(cfg: Config, command: string)
    requires command != ""
    ensures RunAs(cfg, command) == RunAs(cfg, "") + " " + command
  {
  }

  /** User 0 is passed to `run-as` explicitly, so it differs from giving no user. */
  lemma RunAsUserZero(cfg: Config, command: string)
    ensures RunAs(cfg.(userId := Some(0)), command) != RunAs(cfg.(userId := None), command)
  {
    var a, b := RunAs(cfg.(userId := Some(0)), command), RunAs(cfg.(userId := None), command);
    assert |a| == |b| + 9;
  }

  /** ... but user 0 gets no metadata suffix: it shares the default user's metadata file. */
  lemma MetadataUserZero(cfg: Config)
    ensures MetadataPath(cfg.(userId := Some(0))) == MetadataPath(cfg.(userId := None))
  {
  }

  /**
   * A nonzero user gets a metadata file of its own, yet the data file is the
   * same for every user and device.
   */
  lemma SharedDataFile(cfg: Config, u: int, d: Option<string>)
    requires u != 0
    ensures MetadataPath(cfg.(userId := Some(u))) != MetadataPath(cfg.(userId := None))
    ensures DataPath(cfg.(userId := Some(u), serial := d)) == DataPath(cfg)
  {
    var a, b := MetadataPath(cfg.(userId := Some(u))), MetadataPath(cfg.(userId := None));
    assert |a| > |b|;
  }

  /** The metadata file and the data file are never the same path. */
  lemma MetadataApart(cfg: Config)
    ensures MetadataPath(cfg) != DataPath(cfg)
  {
    assert |MetadataPath(cfg)| >= |DataPath(cfg)| + 5;
  }

  /** The device part of the metadata name holds no `:` and no `.`, whatever the serial. */
  lemma DeviceSuffixSafe(cfg: Config)
    ensures ':' !in DeviceSuffix(cfg) && '.' !in DeviceSuffix(cfg)
  {
    if SerialGiven(cfg) {
      var s1 := ReplaceChar(cfg.serial.value, ':', "_");
      ReplaceCharRemoves(cfg.serial.value, ':', "_", '.');
      ReplaceCharRemoves(s1, '.', "_", ':');
      assert DeviceSuffix(cfg) == "_" + ReplaceChar(s1, '.', "_");
    }
  }

  /** The cached data file lies inside the cache directory, as `cleanup` tests it. */
  lemma DataPathInCache(cfg: Config)
    ensures Contains(DataPath(cfg), cfg.cacheDir)
  {
    ContainsAt(DataPath(cfg), 0, cfg.cacheDir);
  }
}
