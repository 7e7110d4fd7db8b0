/**
 * What the tool works against: the bridge to the device, the host-side
 * collaborators it calls but does not implement, the local files it reads
 * and writes, and the instance fields it keeps.
 */
module World {
  import opened Wrappers
  import opened Commands

  /** The argument vector of one `subprocess.run` call. */
  type Argv = seq<string>

  /** The outcome of one bridge call; `TimedOut` stands for `subprocess.TimeoutExpired`. */
  datatype Reply =
    | Done(code: int, out: string, err: string)
    | TimedOut

  /**
   * How the device answers: the reply to a command may depend on every
   * command sent before it (a `cp` changes what a later `-version` reports).
   */
  type Responder = (seq<Argv>, Argv) -> Reply

  /** A value in a JSON document or a result row. */
  datatype Json = JNull | JInt(i: int) | JStr(s: string) | JOther

  /** One result row: column name to value. */
  type Row = map<string, Json>

  /** A local file: raw bytes, or a file whose text is a JSON object. */
  datatype LocalFile = Blob(bytes: string) | JsonDoc(doc: map<string, Json>)

  /** What `json.loads` makes of `sqlite3 -json` output. */
  datatype JsonOutcome = NotJson | JsonList(rows: seq<Row>) | JsonOtherValue

  /** What the local SQLite engine does with a query against a database file. */
  datatype EngineReply =
    | Executed(rows: seq<Row>, after: string)   // fetched rows; the file's bytes afterwards (committed, or autocommitted)
    | SqlError(message: string)                 // `str(sqlite3.Error)`

  /** A 32-bit unsigned value: the first eight hex digits of an MD5 digest. */
  type U32 = x: int | 0 <= x < 0x1_0000_0000

  /** The host-side collaborators, as functions the model is given. */
  datatype Host = Host(
    gunzip: string -> Option<string>,          // `gzip.open(...).read()`; None when it raises
    lsHash: string -> U32,                     // `int(md5(out).hexdigest()[:8], 16)`
    parseJson: string -> JsonOutcome,          // `json.loads`
    engine: (string, string) -> EngineReply,   // `sqlite3.connect` + `execute` on a file's bytes
    now: string,                               // `datetime.now().isoformat()`
    tempName: string)                          // the name `NamedTemporaryFile` picks

  /** Everything an operation depends on but does not change. */
  datatype Ctx = Ctx(cfg: Config, host: Host, respond: Responder)

  /**
   * Everything an operation may change: the instance fields, the commands
   * sent so far, and the local files by full path.
   */
  datatype State = State(
    runAsSupported: Option<bool>,
    sqlitePath: string,
    lastError: Option<string>,
    localDbPath: Option<string>,
    deviceDbPath: Option<string>,
    log: seq<Argv>,
    files: map<string, LocalFile>)

  /** One bridge call: the device answers given the history, and the command joins the log. */
  function Call(c: Ctx, s: State, argv: Argv): (Reply, State) {
    (c.respond(s.log, argv), s.(log := s.log + [argv]))
  }

  /** A reply with exit code 0. */
  predicate Ok(r: Reply) {
    r.Done? && r.code == 0
  }

  /** The bytes of a local file as `sqlite3.connect` sees them: a missing file is an empty database. */
  function BytesOf(files: map<string, LocalFile>, path: string): string {
    if path in files && files[path].Blob? then files[path].bytes else ""
  }

  /**
   * `load_cache_metadata`: the stored object, or `{}` when the file is
   * missing or does not hold a JSON object.
   */
  function LoadMetadata(files: map<string, LocalFile>, path: string): map<string, Json> {
    if path in files && files[path].JsonDoc? then files[path].doc else map[]
  }

  /** `metadata.get(key, default)` */
  function Get(m: map<string, Json>, key: string, default: Json): Json {
    if key in m then m[key] else default
  }

  /** The new entries of the log since `s`. */
  function Sent(s: State, t: State): seq<Argv> {
    if |s.log| <= |t.log| then t.log[|s.log|..] else []
  }

  /** A bridge call changes nothing but the log, which grows by exactly that command. */
  lemma CallStep(c: Ctx, s: State, argv: Argv)
    ensures OnlyLog(s, Call(c, s, argv).1) && Sent(s, Call(c, s, argv).1) == [argv]
  {
  }

  /** Two stretches of calls make one: the logs of both, in order. */
  lemma Chain(s: State, t: State, u: State)
    requires OnlyLog(s, t) && OnlyLog(t, u)
    ensures OnlyLog(s, u) && Sent(s, u) == Sent(s, t) + Sent(t, u)
  {
  }

  /** `t` extends `s`'s log and differs from `s` in nothing but the log. */
  predicate OnlyLog(s: State, t: State) {
    t == s.(log := t.log) && |s.log| <= |t.log| && t.log[..|s.log|] == s.log
  }
}
