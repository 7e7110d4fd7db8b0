/**
 * Getting a working `sqlite3` onto the device (`ensure_sqlite3_on_device`)
 * and the memoized capability probe around it (`check_run_as_support`).
 */
module Provision {
  import opened Wrappers
  import opened Text
  import opened Commands
  import opened World
  import opened Locate

  /** The binary inside the app's private directory, reached through `run-as`. */
  const AppBinary: string := "./sqlite3"

  /** Where a pushed binary is staged. */
  const StagedBinary: string := "/data/local/tmp/sqlite3"

  /** The system locations, probed in this order. */
  const SystemPaths: seq<string> := ["/system/bin/sqlite3", "/system/xbin/sqlite3", StagedBinary]

  /** Every path provisioning may hand back. */
  predicate KnownBinary(p: string) {
    p == AppBinary || p in SystemPaths
  }

  /** A version check passes when it exits 0 and its merged, stripped output names SQLite or a `3.` version. */
  predicate VersionOk(r: Reply) {
    r.Done? && r.code == 0 && (Contains(Strip(r.out + r.err), "SQLite") || Contains(Strip(r.out + r.err), "3."))
  }

  /** How `ensure_sqlite3_on_device` ends: a return value, or an exception its caller catches. */
  datatype Outcome = Returned(path: Option<string>) | Raised

  function AppProbe(cfg: Config): Argv { Shell(cfg, "./sqlite3 -version") }
  function SysProbe(cfg: Config, path: string): Argv { PlainShell(cfg, path + " -version 2>&1") }
  function CopyIn(cfg: Config, path: string): Argv { Shell(cfg, "cp " + path + " ./sqlite3") }
  function ChmodApp(cfg: Config): Argv { Shell(cfg, "chmod 755 ./sqlite3") }
  function PushBundled(cfg: Config): Argv { AdbArgv(cfg, ["push", cfg.bundledPath, StagedBinary]) }
  function ChmodStaged(cfg: Config): Argv { PlainShell(cfg, "chmod 755 " + StagedBinary) }
  function VerifyStaged(cfg: Config): Argv { PlainShell(cfg, StagedBinary + " -version") }

  /**
   * One system path: `None` means the loop goes on to the next one. A copy
   * that works but whose verify fails also goes on.
   */
  function TrySystemPath(c: Ctx, s: State, path: string): (Option<Outcome>, State) {
    var (r, s1) := Call(c, s, SysProbe(c.cfg, path));
    if r.TimedOut? then (Some(Raised), s1)
    else if !VersionOk(r) then (None, s1)
    else CopySystemBinary(c, s1, path)
  }

  /**
   * After a passing probe: copy the system binary into the app directory,
   * make it executable and verify it. A failed copy keeps the system path.
   */
  function CopySystemBinary(c: Ctx, s: State, path: string): (Option<Outcome>, State) {
    var (cp, s1) := Call(c, s, CopyIn(c.cfg, path));
    if cp.TimedOut? then (Some(Raised), s1)
    else if cp.code != 0 then (Some(Returned(Some(path))), s1)
    else
      var (ch, s2) := Call(c, s1, ChmodApp(c.cfg));
      if ch.TimedOut? then (Some(Raised), s2)
      else
        var (v, s3) := Call(c, s2, AppProbe(c.cfg));
        if v.TimedOut? then (Some(Raised), s3)
        else if v.code == 0 then (Some(Returned(Some(AppBinary))), s3)
        else (None, s3)
  }

  /** The loop over the system paths; `None` when every one of them was passed over. */
  function SystemStage(c: Ctx, s: State, paths: seq<string>): (Option<Outcome>, State)
    decreases |paths|
  {
    if paths == [] then (None, s)
    else
      var (o, s1) := TrySystemPath(c, s, paths[0]);
      if o.Some? then (o, s1) else SystemStage(c, s1, paths[1..])
  }

  /** The bundled binary: push, chmod, verify, copy in. Any timeout here is caught and gives `None`. */
  function BundledStage(c: Ctx, s: State): (Option<string>, State) {
    if !c.cfg.bundledPresent then (None, s)
    else
      var (p, s1) := Call(c, s, PushBundled(c.cfg));
      if !Ok(p) then (None, s1)
      else
        var (ch, s2) := Call(c, s1, ChmodStaged(c.cfg));
        if ch.TimedOut? then (None, s2)
        else
          var (v, s3) := Call(c, s2, VerifyStaged(c.cfg));
          if !VersionOk(v) then (None, s3)
          else
            var (cp, s4) := Call(c, s3, CopyIn(c.cfg, StagedBinary));
            if cp.TimedOut? then (None, s4)
            else if cp.code == 0 then
              var (ch2, s5) := Call(c, s4, ChmodApp(c.cfg));
              if ch2.TimedOut? then (None, s5) else (Some(AppBinary), s5)
            else (Some(StagedBinary), s4)
  }

  /** `ensure_sqlite3_on_device`: the app directory, then the system paths, then the bundled binary. */
  function Ensure(c: Ctx, s: State): (Outcome, State) {
    var (r, s1) := Call(c, s, AppProbe(c.cfg));
    if r.TimedOut? then (Raised, s1)
    else if VersionOk(r) then (Returned(Some(AppBinary)), s1)
    else
      var (o, s2) := SystemStage(c, s1, SystemPaths);
      if o.Some? then (o.value, s2)
      else
        var (b, s3) := BundledStage(c, s2);
        (Returned(b), s3)
  }

  function EchoArgv(cfg: Config): Argv { Shell(cfg, "echo \"test\"") }

  /** The echo test passes when it exits 0 and prints `test`. */
  predicate EchoOk(r: Reply) {
    r.Done? && r.code == 0 && Contains(r.out, "test")
  }

  /** `check_run_as_support`: memoized in `runAsSupported`; on success `sqlitePath` is the provisioned binary. */
  function Support(c: Ctx, s: State): (bool, State) {
    if s.runAsSupported.Some? then (s.runAsSupported.value, s)
    else
      var (p, s1) := Find(c, s);
      if p.None? then (false, s1.(runAsSupported := Some(false)))
      else
        var (e, s2) := Call(c, s1, EchoArgv(c.cfg));
        if !EchoOk(e) then (false, s2.(runAsSupported := Some(false)))
        else
          var (o, s3) := Ensure(c, s2);
          if o.Raised? || o.path.None? then (false, s3.(runAsSupported := Some(false)))
          else (true, s3.(sqlitePath := o.path.value, runAsSupported := Some(true)))
  }

  // ---------------------------------------------------------------------
  // Provisioning

  /** Every command provisioning sends, except the bundled push, is an `adb shell` command. */
  predicate ShellShaped(cfg: Config, a: Argv) {
    |a| == |AdbArgv(cfg, ["shell", ""])|
  }

  lemma ShellShapes(cfg: Config, path: string)
    ensures ShellShaped(cfg, SysProbe(cfg, path)) && ShellShaped(cfg, CopyIn(cfg, path))
    ensures ShellShaped(cfg, ChmodApp(cfg)) && ShellShaped(cfg, AppProbe(cfg))
  {
  }

  /** The copy step sends only shell commands, changes only the log, and keeps the system path or the app binary. */
  lemma CopySystemBinaryFacts(c: Ctx, s: State, path: string)
    ensures var (o, t) := CopySystemBinary(c, s, path);
      && OnlyLog(s, t)
      && (forall a :: a in Sent(s, t) ==> ShellShaped(c.cfg, a))
      && (o.Some? && o.value.Returned? ==> o.value.path == Some(path) || o.value.path == Some(AppBinary))
  {
    ShellShapes(c.cfg, path);
    var a1 := CopyIn(c.cfg, path);
    var (cp, s1) := Call(c, s, a1);
    CallStep(c, s, a1);
    if !cp.TimedOut? && cp.code == 0 {
      var a2 := ChmodApp(c.cfg);
      var (ch, s2) := Call(c, s1, a2);
      CallStep(c, s1, a2);
      Chain(s, s1, s2);
      if !ch.TimedOut? {
        var a3 := AppProbe(c.cfg);
        var s3 := Call(c, s2, a3).1;
        CallStep(c, s2, a3);
        Chain(s, s2, s3);
      }
    }
  }

  /**
   * One system path sends its probe first and only shell commands, changes
   * nothing but the log, and can only hand back the app binary or itself.
   */
  lemma TrySystemPathFacts(c: Ctx, s: State, path: string)
    ensures var (o, t) := TrySystemPath(c, s, path);
      && OnlyLog(s, t) && |Sent(s, t)| >= 1 && Sent(s, t)[0] == SysProbe(c.cfg, path)
      && (forall a :: a in Sent(s, t) ==> ShellShaped(c.cfg, a))
      && (o.Some? && o.value.Returned? && o.value.path.Some? ==> o.value.path.value in {AppBinary, path})
      && (o.Some? && o.value.Returned? ==> VersionOk(c.respond(s.log, SysProbe(c.cfg, path))))
  {
    ShellShapes(c.cfg, path);
    var a1 := SysProbe(c.cfg, path);
    var (r, s1) := Call(c, s, a1);
    CallStep(c, s, a1);
    if !r.TimedOut? && VersionOk(r) {
      var t := CopySystemBinary(c, s1, path).1;
      CopySystemBinaryFacts(c, s1, path);
      Chain(s, s1, t);
    }
  }

  /**
   * The system loop probes the paths in order; it returns the app binary or
   * one of its paths, and passes over all of them only after probing each.
   */
  lemma {:induction false} SystemStageFacts(c: Ctx, s: State, paths: seq<string>)
    ensures var (o, t) := SystemStage(c, s, paths);
      && OnlyLog(s, t)
      && (forall a :: a in Sent(s, t) ==> ShellShaped(c.cfg, a))
      && (o.Some? && o.value.Returned? && o.value.path.Some? ==> o.value.path.value == AppBinary || o.value.path.value in paths)
      && (o.None? ==> forall p :: p in paths ==> SysProbe(c.cfg, p) in Sent(s, t))
    decreases |paths|
  {
    if paths != [] {
      var (o1, s1) := TrySystemPath(c, s, paths[0]);
      TrySystemPathFacts(c, s, paths[0]);
      if o1.None? {
        var (o, t) := SystemStage(c, s1, paths[1..]);
        SystemStageFacts(c, s1, paths[1..]);
        Chain(s, s1, t);
        assert forall p :: p in paths ==> p == paths[0] || p in paths[1..];
      }
    }
  }

  /**
   * The system loop goes through the paths strictly in order, one path at a
   * time: `states[i]` is the state before path `i`, each of the first `k`
   * paths was passed over (its attempt gave `None`, in a block of commands
   * opened by its own probe), and then either every path was passed over
   * or path `k` ended the loop. A path whose binary is handed back passed
   * its version check.
   */
  lemma {:induction false} SystemStageOrder(c: Ctx, s: State, paths: seq<string>) returns (k: nat, states: seq<State>)
    ensures var (o, t) := SystemStage(c, s, paths);
      && k <= |paths| && |states| == k + 1 && states[0] == s
      && (forall i :: 0 <= i < k ==> TrySystemPath(c, states[i], paths[i]) == (None, states[i + 1]))
      && (forall i :: 0 <= i < k ==>
            OnlyLog(states[i], states[i + 1]) && |Sent(states[i], states[i + 1])| >= 1
            && Sent(states[i], states[i + 1])[0] == SysProbe(c.cfg, paths[i]))
      && (o.None? ==> k == |paths| && t == states[k])
      && (o.Some? ==> k < |paths| && TrySystemPath(c, states[k], paths[k]) == (o, t))
      && (o.Some? && o.value.Returned? ==> VersionOk(c.respond(states[k].log, SysProbe(c.cfg, paths[k]))))
    decreases |paths|
  {
    if paths == [] {
      k, states := 0, [s];
    } else {
      var (o1, s1) := TrySystemPath(c, s, paths[0]);
      TrySystemPathFacts(c, s, paths[0]);
      if o1.Some? {
        k, states := 0, [s];
      } else {
        var k', states' := SystemStageOrder(c, s1, paths[1..]);
        k, states := k' + 1, [s] + states';
        forall i | 0 <= i < k
          ensures TrySystemPath(c, states[i], paths[i]) == (None, states[i + 1])
        {
          if i > 0 {
            assert states[i] == states'[i - 1] && paths[i] == paths[1..][i - 1];
          }
        }
        forall i | 0 <= i < k
          ensures OnlyLog(states[i], states[i + 1]) && |Sent(states[i], states[i + 1])| >= 1
            && Sent(states[i], states[i + 1])[0] == SysProbe(c.cfg, paths[i])
        {
          TrySystemPathFacts(c, states[i], paths[i]);
        }
      }
    }
  }

  /** The push of the bundled binary has one argument more than any shell command. */
  lemma PushNotShell(cfg: Config)
    ensures !ShellShaped(cfg, PushBundled(cfg)) && PushBundled(cfg) != AppProbe(cfg)
  {
  }

  /** The bundled stage changes only the log and hands back the app binary or the staged one. */
  lemma BundledStageFacts(c: Ctx, s: State)
    ensures var (b, t) := BundledStage(c, s);
      && OnlyLog(s, t)
      && (b.Some? ==> b.value == AppBinary || b.value == StagedBinary)
  {
    if c.cfg.bundledPresent {
      var a1 := PushBundled(c.cfg);
      var (p, s1) := Call(c, s, a1);
      CallStep(c, s, a1);
      if Ok(p) {
        var a2 := ChmodStaged(c.cfg);
        var (ch, s2) := Call(c, s1, a2);
        CallStep(c, s1, a2);
        Chain(s, s1, s2);
        if !ch.TimedOut? {
          var a3 := VerifyStaged(c.cfg);
          var (v, s3) := Call(c, s2, a3);
          CallStep(c, s2, a3);
          Chain(s, s2, s3);
          if VersionOk(v) {
            var a4 := CopyIn(c.cfg, StagedBinary);
            var (cp, s4) := Call(c, s3, a4);
            CallStep(c, s3, a4);
            Chain(s, s3, s4);
            if Ok(cp) {
              var a5 := ChmodApp(c.cfg);
              var s5 := Call(c, s4, a5).1;
              CallStep(c, s4, a5);
              Chain(s, s4, s5);
            }
          }
        }
      }
    }
  }

  /**
   * Provisioning hands back only `./sqlite3`, one of the system paths or the
   * staged binary; it asks the app directory first, and a passing check there
   * ends it at once. Only the log changes.
   */
  lemma EnsureResult(c: Ctx, s: State)
    ensures var (o, t) := Ensure(c, s);
      && OnlyLog(s, t)
      && (o.Returned? && o.path.Some? ==> KnownBinary(o.path.value))
      && |Sent(s, t)| >= 1 && Sent(s, t)[0] == AppProbe(c.cfg)
      && (VersionOk(c.respond(s.log, AppProbe(c.cfg))) ==> o == Returned(Some(AppBinary)) && |Sent(s, t)| == 1)
  {
    var a1 := AppProbe(c.cfg);
    var (r, s1) := Call(c, s, a1);
    CallStep(c, s, a1);
    if !r.TimedOut? && !VersionOk(r) {
      SystemStageFacts(c, s1, SystemPaths);
      var (o, s2) := SystemStage(c, s1, SystemPaths);
      Chain(s, s1, s2);
      if o.None? {
        var s3 := BundledStage(c, s2).1;
        BundledStageFacts(c, s2);
        Chain(s, s2, s3);
      }
    }
  }

  /**
   * The bundled binary is pushed only after the app directory's check
   * failed and each of the three system paths was probed and passed over.
   */
  lemma BundledOnlyAfterSystemPaths(c: Ctx, s: State)
    ensures var (o, t) := Ensure(c, s);
      var r := c.respond(s.log, AppProbe(c.cfg));
      PushBundled(c.cfg) in Sent(s, t) ==>
        && r.Done? && !VersionOk(r)
        && SystemStage(c, s.(log := s.log + [AppProbe(c.cfg)]), SystemPaths).0.None?
        && forall p :: p in SystemPaths ==> SysProbe(c.cfg, p) in Sent(s, t)
  {
    var a1 := AppProbe(c.cfg);
    var (r, s1) := Call(c, s, a1);
    CallStep(c, s, a1);
    PushNotShell(c.cfg);
    if !r.TimedOut? && !VersionOk(r) {
      SystemStageFacts(c, s1, SystemPaths);
      var (o2, s2) := SystemStage(c, s1, SystemPaths);
      Chain(s, s1, s2);
      if o2.None? {
        var s3 := BundledStage(c, s2).1;
        BundledStageFacts(c, s2);
        Chain(s, s2, s3);
      }
    }
  }

  /**
   * A system binary that copies in but then fails its verify does not end
   * provisioning: after those four commands the loop carries on with the
   * next path.
   */
  lemma FailedVerifyContinues(c: Ctx, s: State, path: string, rest: seq<string>)
    requires var s1 := Call(c, s, SysProbe(c.cfg, path)).1;
      var s2 := Call(c, s1, CopyIn(c.cfg, path)).1;
      var s3 := Call(c, s2, ChmodApp(c.cfg)).1;
      && VersionOk(c.respond(s.log, SysProbe(c.cfg, path)))
      && Ok(c.respond(s1.log, CopyIn(c.cfg, path)))
      && !c.respond(s2.log, ChmodApp(c.cfg)).TimedOut?
      && c.respond(s3.log, AppProbe(c.cfg)).Done? && c.respond(s3.log, AppProbe(c.cfg)).code != 0
    ensures var (o, t) := TrySystemPath(c, s, path);
      && o.None?
      && Sent(s, t) == [SysProbe(c.cfg, path), CopyIn(c.cfg, path), ChmodApp(c.cfg), AppProbe(c.cfg)]
      && SystemStage(c, s, [path] + rest) == SystemStage(c, t, rest)
  {
    assert ([path] + rest)[1..] == rest;
    var a1, a2, a3, a4 := SysProbe(c.cfg, path), CopyIn(c.cfg, path), ChmodApp(c.cfg), AppProbe(c.cfg);
    var s1 := Call(c, s, a1).1;
    var s2 := Call(c, s1, a2).1;
    var s3 := Call(c, s2, a3).1;
    var s4 := Call(c, s3, a4).1;
    CallStep(c, s, a1);
    CallStep(c, s1, a2);
    CallStep(c, s2, a3);
    CallStep(c, s3, a4);
    Chain(s, s1, s2);
    Chain(s, s2, s3);
    Chain(s, s3, s4);
  }

  // ---------------------------------------------------------------------
  // Capability memo

  /** Once known, the answer is returned with no command sent and nothing changed. */
  lemma SupportMemo(c: Ctx, s: State)
    requires s.runAsSupported.Some?
    ensures Support(c, s) == (s.runAsSupported.value, s)
  {
  }

  /**
   * A fresh probe records its answer, which is true exactly when the
   * database is found, the echo test passes and provisioning returns a
   * path; `sqlitePath` then holds that path, and otherwise stays as it was.
   */
  lemma SupportMeans(c: Ctx, s: State)
    requires s.runAsSupported.None?
    ensures var (b, t) := Support(c, s);
      var (p, s1) := Find(c, s);
      var e := c.respond(s1.log, EchoArgv(c.cfg));
      var (o, s3) := Ensure(c, s1.(log := s1.log + [EchoArgv(c.cfg)]));
      && t.runAsSupported == Some(b)
      && (b <==> p.Some? && EchoOk(e) && o.Returned? && o.path.Some?)
      && (b ==> t.sqlitePath == o.path.value && KnownBinary(t.sqlitePath))
      && (!b ==> t.sqlitePath == s.sqlitePath)
      && t.lastError == s.lastError && t.localDbPath == s.localDbPath
      && t.deviceDbPath == s.deviceDbPath && t.files == s.files
  {
    var _ := FindSendsProbes(c, s, Locations(c.cfg));
    var (p, s1) := Find(c, s);
    if p.Some? {
      var s2 := s1.(log := s1.log + [EchoArgv(c.cfg)]);
      EnsureResult(c, s2);
    }
  }

  /** Asking twice gives the same answer, and the second time sends nothing. */
  lemma SupportIdempotent(c: Ctx, s: State)
    ensures var (b, t) := Support(c, s); Support(c, t) == (b, t)
  {
    if s.runAsSupported.None? {
      SupportMeans(c, s);
    }
  }
}
