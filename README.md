# SQLite-over-ADB query tool, modelled in Dafny

This project models the decision logic of `SQLiteADBQueryTool`, a class that
runs SQL queries against an Android app's private SQLite database in one of
two ways:

- **On the device**: through `adb shell run-as <package> sqlite3 ...`, after
  the tool has made sure a working `sqlite3` binary exists there.
- **On a pulled copy**: the tool pulls the database to the host (with gzip
  when it can, reusing a cached copy while the device's copy is unchanged),
  runs the query with the local SQLite engine, and pushes the file back
  after a write.

## Shape of the model

The model has two layers:

- **A functional layer.** Each operation is a function from a context and a
  state to a result and a new state. The context (`World.Ctx`) holds the
  configuration (`Commands.Config`) and the host collaborators
  (`World.Host`). It also holds the device, as a responder that answers each
  argument vector given every command sent before it. The state
  (`World.State`) holds:
  - the instance fields `run_as_supported`, `sqlite3_path`, `last_error`,
    `local_db_path` and `device_db_path`;
  - the log of commands sent;
  - the local file system, as a map from path to contents.
- **An object layer.** `QueryTool.Tool` is a class with those fields as
  mutable fields. Its methods follow the Python methods statement by
  statement: the probe loop of `find_database_path`, the system-path loop of
  `ensure_sqlite3_on_device`, and the row loop of the pipe-output parser are
  `while` loops with invariants. Each method is proved to return what the
  corresponding function returns and to leave the object in the state that
  function returns.

The properties are lemmas about the functional layer. A device *timeout*
(`subprocess.TimeoutExpired`) is the reply `TimedOut`. It is handled wherever
the source catches it: in some places the whole operation fails, in others
the provisioning stage is abandoned. The ordering facts below ("the SHM file
is probed only after a WAL file was found") are stated over the log of
commands sent.

Quirks of the code that the model keeps:

- **User id 0.** A user id of 0 gets `--user 0` on `run-as`, but no `_user`
  suffix on the metadata file.
- **Shared data file.** The cached data file has no user or device suffix.
- **Failed verify after a copy.** When a system `sqlite3` copies into the
  app directory but fails its verify, the loop moves on to the next system
  path.
- **Decompression failure.** A failed decompression leaves an empty local
  file and fails the pull. It does not fall back to the standard transfer.
- **Local path after a failed pull.** A transfer that fails after the
  database was found still leaves `local_db_path` set to the new target.
- **Queries that are neither reads nor writes.** A `WITH ...` query or a
  `VACUUM` run locally is committed and returns `[]`, even when the engine
  fetched rows.

A failed decompression (`adb_sqlite_query_tool.py:851-855`) or a timeout
(`adb_sqlite_query_tool.py:864-866`) returns False without trying the
standard transfer, although the usage text says the compressed transfer
"automatically falls back if gzip unavailable on device"
(`adb_sqlite_query_tool.py:1219`): only a missing `gzip`, a failed `gzip -c`
and other exceptions fall back (833, 868).

Modules:

| module | what it holds |
|---|---|
| `Wrappers` | `Option` |
| `Text` | Python string operations used by the tool: `strip`, `upper`, `in`, `split`, `replace`, `rstrip(';')`, `int()` |
| `Queries` | query classification, the LIMIT rewrite, shell escaping, remote error extraction |
| `Commands` | configuration, `run-as`/`adb` command builders, cache file names |
| `World` | replies, rows, local files, host collaborators, the state and one bridge call |
| `Devices` | reading `adb devices` |
| `PipeTable` | the header-and-`\|` parser of the remote fallback |
| `Locate` | `find_database_path`, `get_remote_db_mtime` |
| `Provision` | `ensure_sqlite3_on_device`, `check_run_as_support` |
| `Cache` | `get_cached_db_path`, `cleanup`, `clear_cache` |
| `Transfer` | the pulls, the WAL/SHM capture, `pull_database`, `push_database` |
| `Remote` | `execute_remote_query` and its fallback |
| `Router` | `execute_query_local`, `execute_query` |
| `QueryTool` | the class `Tool` |

## Model

| member | source | states |
|---|---|---|
| Queries.KeywordHeads | adb_sqlite_query_tool.py:640-642 | a text that starts with one of the seven write keywords starts with neither SELECT nor PRAGMA |
| Queries.WriteExcludesRead | adb_sqlite_query_tool.py:640-642 | no query is both a write (`is_write_query`) and a read (the SELECT/PRAGMA test of local execution) |
| Queries.ClassificationIgnoresCase | adb_sqlite_query_tool.py:640-642 | upper-casing a query first changes neither its normal form nor whether it counts as a write or a read |
| Queries.ClassificationIgnoresLeadingSpace | adb_sqlite_query_tool.py:640 | leading whitespace changes neither the normal form nor the write/read classification |
| Queries.LimitOnlyTouchesSelect | adb_sqlite_query_tool.py:987-988 | the rewrite changes only a query that starts with SELECT when a truthy limit is given; writes and PRAGMAs always pass through unchanged |
| Queries.RewriteStillSelect | adb_sqlite_query_tool.py:988 | removing trailing `;` and appending anything keeps a SELECT query a SELECT query |
| Queries.LimitKeepsClassification | adb_sqlite_query_tool.py:986-988 | the rewritten query is a write exactly when the original is, and a read exactly when the original is |
| Queries.LimitIdempotent | adb_sqlite_query_tool.py:987-988 | rewriting twice equals rewriting once, and a SELECT given a truthy limit mentions LIMIT (in upper case) afterwards |
| Queries.EscapeConcat | adb_sqlite_query_tool.py:510-513 | the four replacement passes distribute over concatenation |
| Queries.EscapeIsCharwise | adb_sqlite_query_tool.py:510-513 | the four passes, backslash first, equal escaping each of `\`, `"`, `$` and backtick on its own with one backslash, so nothing is escaped twice |
| Queries.EscapeRoundTrip | adb_sqlite_query_tool.py:591-594 | the shell's reading of the escaped text inside double quotes gives back exactly the query, so no unescaped `"`, `$` or backtick is left |
| Queries.FailureMessage | adb_sqlite_query_tool.py:528-541 | the failure is "not debuggable" exactly when the lower-cased message says so; with an `Error:` marker the recorded error is the stripped last element of `split("Error:")`, which is shorter than the message and contains no marker; otherwise the recorded error is never empty |
| Commands.AdbArgv | adb_sqlite_query_tool.py:93-107 | the argument vector starts with `adb`, ends with the given command, and has exactly `-s`, the serial between them when a non-empty serial is set, and nothing between them otherwise |
| Commands.RunAsCommandLast | adb_sqlite_query_tool.py:78-91 | a non-empty command follows the `run-as` prefix after exactly one space |
| Commands.RunAsUserZero | adb_sqlite_query_tool.py:88 | user id 0 still adds a `--user` flag: the `run-as` text differs from the one without a user |
| Commands.MetadataUserZero | adb_sqlite_query_tool.py:74 | user id 0 adds no suffix: its metadata file is the one without a user |
| Commands.SharedDataFile | adb_sqlite_query_tool.py:74-76 | a non-zero user gets a metadata file of its own, while the data file is the same for every user and device |
| Commands.MetadataApart | adb_sqlite_query_tool.py:76 | the metadata file and the data file are different paths |
| Commands.DeviceSuffixSafe | adb_sqlite_query_tool.py:75 | the device suffix contains no `:` and no `.` |
| Commands.DataPathInCache | adb_sqlite_query_tool.py:1059 | the cached data file's path contains the cache directory |
| Devices.KeepExact | adb_sqlite_query_tool.py:124 | the device filter keeps exactly the non-blank lines that mention `device` and never adds lines |
| Devices.KeepNonEmpty | adb_sqlite_query_tool.py:126-129 | some device is listed exactly when some line after the header is non-blank and mentions `device` |
| Devices.KeepSerial | adb_sqlite_query_tool.py:131-132 | the serial is found in a device line exactly when some kept line contains it |
| Devices.AdbConnectedMeans | adb_sqlite_query_tool.py:109-152 | the connection check passes exactly when `adb devices` exits 0, some device line is listed, and a requested serial occurs in one of those lines; a timed-out `adb devices` gives False |
| PipeTable.Lines | adb_sqlite_query_tool.py:607-609 | splitting the stripped output always gives at least one line, so the empty-lines return is unreachable |
| PipeTable.ParseTable | adb_sqlite_query_tool.py:607-624 | the parsing loop returns the table the row rules define, with no more rows than data lines, and every row maps exactly the stripped header names |
| PipeTable.ZipRowKeys | adb_sqlite_query_tool.py:621 | a row built from equally long headers and values has exactly the header names as keys |
| PipeTable.ZipRowValue | adb_sqlite_query_tool.py:621 | each header maps to the value at its last occurrence, as `dict(zip(...))` does with duplicate headers |
| PipeTable.RowsBound | adb_sqlite_query_tool.py:615-622 | there are never more rows than data lines |
| PipeTable.RowsFromKeptLines | adb_sqlite_query_tool.py:616-622 | every row comes from a non-blank data line whose field count equals the header count |
| PipeTable.KeptLinesYieldRows | adb_sqlite_query_tool.py:616-622 | every non-blank data line with the header's field count yields a row |
| Locate.FindSendsProbes | adb_sqlite_query_tool.py:193-207 | the probe loop changes only the log, sends the `ls` probes for a prefix of the locations in order, and a found location is the last one probed |
| Locate.FindReturnsFirstHit | adb_sqlite_query_tool.py:199-204 | a returned location is the first whose probe exits 0 and names the database |
| Locate.FindReachesFirstHit | adb_sqlite_query_tool.py:199-204 | the first location whose probe hits is returned, provided no earlier probe timed out |
| Locate.MtimeSources | adb_sqlite_query_tool.py:224-244 | the fingerprint is 0 when the database is not found or `stat` times out; a successful `stat` gives its parsed output (0 when `int()` rejects it); after a `stat` with a non-zero exit the fingerprint is the hash of a successful `ls -l`, below 2^32, and otherwise 0; `ls -l` is sent only after `stat` exited non-zero |
| Provision.TrySystemPathFacts | adb_sqlite_query_tool.py:338-369 | one system path sends its version probe first and only shell commands, changes only the log, and can hand back only `./sqlite3` or that path, and only after that probe passed its version check |
| Provision.CopySystemBinaryFacts | adb_sqlite_query_tool.py:347-372 | after a passing probe, the copy step sends only shell commands, changes only the log, and hands back the system path (failed copy) or `./sqlite3` (verified copy), if anything |
| Provision.SystemStageFacts | adb_sqlite_query_tool.py:338-369 | the system-path loop sends only shell commands, hands back `./sqlite3` or one of the paths, and when it passes over all of them it has probed every one |
| Provision.SystemStageOrder | adb_sqlite_query_tool.py:338-369 | the paths are tried strictly in the fixed order, one block of commands per path opened by that path's probe; every path before the one that ends the loop was passed over; a path whose binary is handed back passed its version check |
| Provision.FailedVerifyContinues | adb_sqlite_query_tool.py:354-369 | a path that copies in but then fails its verify gives no result and the loop goes on with the next path |
| Provision.BundledStageFacts | adb_sqlite_query_tool.py:371-425 | the bundled stage changes only the log and hands back `./sqlite3` or `/data/local/tmp/sqlite3`, if anything |
| Provision.EnsureResult | adb_sqlite_query_tool.py:321-431 | provisioning probes the app directory first, returns `./sqlite3` with that one command when the probe passes, and otherwise returns only `./sqlite3`, a system path, the staged path or none |
| Provision.BundledOnlyAfterSystemPaths | adb_sqlite_query_tool.py:321-385 | the bundled binary is pushed only after the app directory's check failed and the system-path loop passed over every path, each of which was probed |
| Provision.SupportMemo | adb_sqlite_query_tool.py:441-442 | once support is known, the check returns it and sends nothing |
| Provision.SupportMeans | adb_sqlite_query_tool.py:444-475 | a fresh check records its answer, which is true exactly when the database was found, the echo exited 0 printing `test`, and provisioning returned a path; `sqlite3_path` is then that path and otherwise unchanged; no other field changes |
| Provision.SupportIdempotent | adb_sqlite_query_tool.py:441-475 | checking again after a check returns the same answer and changes nothing |
| Cache.CacheFreshness | adb_sqlite_query_tool.py:286-310 | the cached data file is returned exactly when caching is on, no re-pull is forced, metadata exists, the data file exists, and the fingerprint is 0 or equals the stored `mtime` (default 0); in the first four failing cases the device is not asked |
| Cache.CleanupKeepsCache | adb_sqlite_query_tool.py:1055-1067 | cleanup changes only local files; an existing local copy is deleted exactly when caching is off or its path does not contain the cache directory, so the cached data file survives while caching is on |
| Cache.ClearCacheEffect | adb_sqlite_query_tool.py:1069-1083 | clearing removes the metadata and data files and nothing else, is idempotent, and leaves nothing for the next freshness check |
| Transfer.StandardFacts | adb_sqlite_query_tool.py:774-800 | the standard pull sends one `cat`, succeeds exactly when it exits 0, and then the local file holds the device's bytes; only that file can change |
| Transfer.CompressedFallbacks | adb_sqlite_query_tool.py:802-869 | with no gzip or a failed `gzip -c` the result is the standard pull's; after a gzip transfer the `.gz` file is gone, and a failed decompression fails the pull with an emptied local file rather than falling back |
| Transfer.ShmOnlyAfterWal | adb_sqlite_query_tool.py:727-772 | the WAL probe comes first; without a WAL file nothing else is sent or written; a new SHM file appears only when a WAL file was found; only the -wal and -shm files can change |
| Transfer.PushStagingCleanup | adb_sqlite_query_tool.py:871-925 | with no local file or no device path nothing is sent; a failed staging push stops there; a timed-out copy skips the cleanup; otherwise the staging file is removed whatever the copy's result, and success is exactly the copy's exit code 0 |
| Transfer.AfterPullFacts | adb_sqlite_query_tool.py:692-713 | after a successful transfer the recorded paths stay, the local copy stays, and with caching the metadata records the package, the device path and the fingerprint measured on the device after the side files were captured |
| Transfer.PullKeepsError | adb_sqlite_query_tool.py:644-717 | pulling never changes the recorded error |
| Transfer.PullOutcome | adb_sqlite_query_tool.py:654-717 | a successful pull leaves a local copy at `local_db_path`: the cached file, or the new target with a device path and, when caching, a metadata record holding that device path and the fingerprint taken after the side files were captured; a failed pull keeps the old local path when the database was not found and otherwise points at the new target |
| Transfer.RecordedCacheIsUsed | adb_sqlite_query_tool.py:700-709 | after the metadata of a pull is recorded, the next freshness check reuses the data file exactly when the fingerprint is 0 or equals the recorded one |
| Remote.CommandCarriesQuery | adb_sqlite_query_tool.py:508-520 | both the JSON command and the fallback command end with the escaped query as one double-quoted word, which the shell reads back as the query |
| Remote.RemoteOutcome | adb_sqlite_query_tool.py:482-572 | remote execution changes only the recorded error and the log; a result means no recorded error and a recorded error means no result |
| Remote.RemoteMessages | adb_sqlite_query_tool.py:494-568 | a missing database records "Could not find database path on device", a timeout records the timeout message, and a write that succeeds returns `[]` |
| Remote.ReadOutcomeFrame | adb_sqlite_query_tool.py:548-563 | reading the output changes nothing but the log, and gives no result only for non-empty output or a query that is not SELECT or PRAGMA |
| Remote.EmptyOutputRule | adb_sqlite_query_tool.py:548-554 | empty output returns `[]` for SELECT and PRAGMA and no result otherwise, with no command sent |
| Router.Prepare | adb_sqlite_query_tool.py:1012-1017 | when local execution can go ahead, `local_db_path` names an existing local file; an existing local copy always makes it ready; the recorded error is untouched |
| Router.LocalPullFailure | adb_sqlite_query_tool.py:1013-1017 | when no copy can be made ready there is no result and the error is "Failed to pull database for local execution" |
| Router.LocalEngineError | adb_sqlite_query_tool.py:1047-1050 | an engine error gives no result, records the engine's message, and sends nothing |
| Router.LocalRead | adb_sqlite_query_tool.py:1022-1031 | a SELECT or PRAGMA returns the fetched rows; beyond making the copy ready only the local copy changes, to the bytes the statement left (a writing PRAGMA is autocommitted), and nothing is pushed |
| Router.LocalCommit | adb_sqlite_query_tool.py:1032-1045 | any other query returns `[]`, leaves the committed bytes in the local file and records no error, whatever a push reports |
| Router.CommitOnCopy | adb_sqlite_query_tool.py:1032-1045 | on a ready copy, a committed statement returns `[]` and leaves the committed bytes in the local file, whether or not a push follows |
| Router.LocalPushOnlyWrites | adb_sqlite_query_tool.py:1038-1043 | a query that is not a write sends nothing once the copy is ready |
| Router.LocalWritePushes | adb_sqlite_query_tool.py:1032-1045 | a committed write returns `[]` and ends in the state the push back to the device leaves, after the committed bytes were stored locally |
| Router.LocalDropsRowsOfOtherQueries | adb_sqlite_query_tool.py:1028-1045 | a query that is not SELECT or PRAGMA returns `[]` when it succeeds locally, even when the engine fetched rows |
| Router.RouterLocalOnly | adb_sqlite_query_tool.py:990-1000 | without `prefer_remote`, or with `force_local`, the query runs locally and nothing is probed |
| Router.RouterPrefersRemote | adb_sqlite_query_tool.py:990-1000 | a remote result is returned as is; local execution happens exactly when support is missing or the device gave no result; when support is already known to be missing, nothing is probed |
| Router.WriteYieldsEmpty | adb_sqlite_query_tool.py:986-1000 | the LIMIT rewrite never touches a write, and a write that succeeds on either path returns `[]` |
| QueryTool.Tool.constructor | adb_sqlite_query_tool.py:45-76 | a new tool knows nothing about run-as support, has no error and no local or device path, and uses `./sqlite3` |
| QueryTool.Tool.CheckAdbConnection | adb_sqlite_query_tool.py:109-152 | sends `adb devices` without a serial and returns the connection verdict on its reply |
| QueryTool.Tool.FindDatabasePath | adb_sqlite_query_tool.py:184-209 | the probe loop returns the location and leaves the state that the probe function prescribes |
| QueryTool.Tool.GetRemoteDbMtime | adb_sqlite_query_tool.py:211-248 | returns the fingerprint and leaves the state that the fingerprint function prescribes |
| QueryTool.Tool.SaveCacheMetadata | adb_sqlite_query_tool.py:266-277 | writes the metadata file, which then loads back as the saved object |
| QueryTool.Tool.GetCachedDbPath | adb_sqlite_query_tool.py:279-310 | returns the result of the freshness decision and leaves the state that it prescribes |
| QueryTool.Tool.TrySystemPath | adb_sqlite_query_tool.py:338-369 | one pass of the system-path loop, as the function for one system path prescribes |
| QueryTool.Tool.InstallBundled | adb_sqlite_query_tool.py:371-425 | the bundled stage, as the bundled-stage function prescribes |
| QueryTool.Tool.EnsureSqlite3 | adb_sqlite_query_tool.py:312-431 | the provisioning chain with its loop over the system paths, as the provisioning function prescribes |
| QueryTool.Tool.CheckRunAsSupport | adb_sqlite_query_tool.py:433-480 | the memoized probe, as the support function prescribes |
| QueryTool.Tool.ExecuteRemoteFallback | adb_sqlite_query_tool.py:574-628 | the fallback command and row parsing, as the fallback function prescribes |
| QueryTool.Tool.ExecuteRemoteQuery | adb_sqlite_query_tool.py:482-572 | remote execution, as the remote-execution function prescribes |
| QueryTool.Tool.ReadRemoteOutput | adb_sqlite_query_tool.py:548-563 | the empty, JSON and non-JSON output rules, as the output function prescribes |
| QueryTool.Tool.PullStandard | adb_sqlite_query_tool.py:774-800 | the standard pull into the chosen local path |
| QueryTool.Tool.PullCompressed | adb_sqlite_query_tool.py:802-869 | the compressed pull with its fallbacks, into the chosen local path |
| QueryTool.Tool.PullWalFiles | adb_sqlite_query_tool.py:719-772 | the WAL/SHM capture next to the chosen local path |
| QueryTool.Tool.PullDatabase | adb_sqlite_query_tool.py:644-717 | the full pull: cached copy, or find, choose a target, transfer, capture and record |
| QueryTool.Tool.PullFresh | adb_sqlite_query_tool.py:662-717 | the part of the pull after the database has been found |
| QueryTool.Tool.RecordPull | adb_sqlite_query_tool.py:692-713 | WAL/SHM capture, then the metadata record when caching |
| QueryTool.Tool.PushDatabase | adb_sqlite_query_tool.py:871-925 | the push with its staging cleanup, as the push function prescribes |
| QueryTool.Tool.ExecuteQueryLocal | adb_sqlite_query_tool.py:1002-1053 | local execution, as the local-execution function prescribes |
| QueryTool.Tool.PrepareCopy | adb_sqlite_query_tool.py:1012-1017 | uses the local copy when there is one, and otherwise pulls with compression |
| QueryTool.Tool.RunLocal | adb_sqlite_query_tool.py:1019-1053 | the engine call, the commit and the push of a write, on the ready copy |
| QueryTool.Tool.ExecuteQuery | adb_sqlite_query_tool.py:971-1000 | the router: LIMIT rewrite, then remote when allowed and supported, then local |
| QueryTool.Tool.Cleanup | adb_sqlite_query_tool.py:1055-1067 | deletes the local copy unless it is the cached file kept for later |
| QueryTool.Tool.ClearCache | adb_sqlite_query_tool.py:1069-1083 | removes both cache files when present and returns True |

## Left out

- `app.py`: HTTP routing, environment configuration and shell post-processing; it has no decision logic of its own.
- The `print` diagnostics, the Windows encoding setup, `main()` and its argument parsing.
- `check_database_exists`: the same probe loop as `find_database_path`, reporting by `print` only.
- `get_table_list`, `get_table_info`, `get_table_count`, `print_table_data` and `export_to_csv`: fixed queries passed to `execute_query`, plus formatting and CSV writing.
- The ADB server, `subprocess.run`, the local SQLite engine, `json.loads`, gzip and MD5 are inputs: the responder and the `Host` functions. A timeout is the reply `TimedOut`, whichever timeout value the source passes.
- A missing `adb` executable (`FileNotFoundError`, `adb_sqlite_query_tool.py:150-152`) is not a reply the model can give.
- Local I/O errors are not modelled: a failed open, write, unlink or `getsize`, and the `except Exception` branches that only such errors reach (`adb_sqlite_query_tool.py:569-572`, `715-717`, `867-869`, `923-925`, `1066-1067`, `1081-1083`).
- The cache directory's `mkdir` is not modelled. Directories are not modelled; the local file system is a map from full path to contents.
- `datetime.now()` and the name `NamedTemporaryFile` picks are fixed inputs (`Host.now`, `Host.tempName`). Every temporary pull of one tool therefore uses the same name.
- Text.Upper, Text.Lower: map only ASCII letters, whereas Python's `upper()` and `lower()` also map other Unicode letters.
- Text.ParseInt: accepts an optional sign, ASCII digits and single underscores between digits, around stripped text. Python's `int()` also accepts other Unicode decimal digits.
- Cache.CachedPath: compares the fingerprint only with an integer `mtime`. In Python an `mtime` stored as `1.0` or `true` would also compare equal to 1.
- World.LoadMetadata: a metadata file whose JSON is not an object reads as `{}`. In Python any truthy JSON value that is not an object (a non-empty list or string, a non-zero number, `true`) passes the emptiness test; `get_cached_db_path` then reuses the cached file when the device fingerprint is 0 (`adb_sqlite_query_tool.py:298-301`) and otherwise `metadata.get` raises and the pull fails, whereas the model reads it as `{}` and pulls afresh.
- Local execution on side files: the engine sees only the bytes of the main database file. The captured `-wal` and `-shm` side files are stored locally but reach no query result, and a commit is modelled as landing in the main file, not in the write-ahead log.
- Remote.ReadOutcome: a JSON list from `sqlite3 -json` is returned as it is, and the model types its elements as rows; a list holding other values is not modelled.
- Local execution: an exception from the engine other than `sqlite3.Error` propagates in the source and is not modelled.
- The `-wal` and `-shm` files are never deleted, by `cleanup` or `clear_cache`, in the source or in the model.
