/**
 * Finding the database on the device (`find_database_path`) and reading its
 * modification fingerprint (`get_remote_db_mtime`).
 */
module Locate {
  import opened Wrappers
  import opened Text
  import opened Commands
  import opened World

  /** The three places probed, in order. */
  function Locations(cfg: Config): seq<string> {
    ["databases/" + cfg.db, "files/" + cfg.db, "files/SQLite/" + cfg.db]
  }

  function Probe(cfg: Config, loc: string): Argv {
    Shell(cfg, "ls " + loc)
  }

  function Probes(cfg: Config, locs: seq<string>): seq<Argv> {
    seq(|locs|, i requires 0 <= i < |locs| => Probe(cfg, locs[i]))
  }

  /** A probe finds the database when `ls` succeeds and names the database file. */
  predicate Hit(cfg: Config, r: Reply) {
    r.Done? && r.code == 0 && Contains(r.out, cfg.db)
  }

  /** The probe loop from `locs` on; a timeout ends it with `None`. */
  function FindFrom(c: Ctx, s: State, locs: seq<string>): (Option<string>, State)
    decreases |locs|
  {
    if locs == [] then (None, s)
    else
      var (r, s1) := Call(c, s, Probe(c.cfg, locs[0]));
      if r.TimedOut? then (None, s1)
      else if Hit(c.cfg, r) then (Some(locs[0]), s1)
      else FindFrom(c, s1, locs[1..])
  }

  /** `find_database_path` */
  function Find(c: Ctx, s: State): (Option<string>, State) {
    FindFrom(c, s, Locations(c.cfg))
  }

  /** The reply the `j`-th probe gets when the first `j` probes went before it. */
  function ProbeReply(c: Ctx, s: State, locs: seq<string>, j: nat): Reply
    requires j < |locs|
  {
    c.respond(s.log + Probes(c.cfg, locs[..j]), Probe(c.cfg, locs[j]))
  }

  /** The `k`-th location is the first one whose probe hits. */
  predicate FirstHitAt(c: Ctx, s: State, locs: seq<string>, k: nat) {
    && k < |locs|
    && Hit(c.cfg, ProbeReply(c, s, locs, k))
    && forall j :: 0 <= j < k ==> !Hit(c.cfg, ProbeReply(c, s, locs, j))
  }

  function StatArgv(cfg: Config, path: string): Argv {
    Shell(cfg, "stat -c %Y " + path)
  }

  function LsArgv(cfg: Config, path: string): Argv {
    Shell(cfg, "ls -l " + path)
  }

  /**
   * `get_remote_db_mtime`: `stat`, then a hash of `ls -l`, then 0. An output
   * of `stat` that `int()` rejects, and a timeout anywhere, give 0.
   */
  function Mtime(c: Ctx, s: State): (int, State) {
    var (p, s1) := Find(c, s);
    if p.None? then (0, s1)
    else
      var (st, s2) := Call(c, s1, StatArgv(c.cfg, p.value));
      if st.TimedOut? then (0, s2)
      else if st.code == 0 then (ParseInt(Strip(st.out)).GetOr(0), s2)
      else
        var (ls, s3) := Call(c, s2, LsArgv(c.cfg, p.value));
        if Ok(ls) then (c.host.lsHash(ls.out), s3) else (0, s3)
  }

  // ---------------------------------------------------------------------

  /** After the first probe, the remaining probes see the same histories as before. */
  lemma ProbeReplyShift(c: Ctx, s: State, locs: seq<string>, j: nat)
    requires j + 1 < |locs|
    ensures ProbeReply(c, Call(c, s, Probe(c.cfg, locs[0])).1, locs[1..], j) == ProbeReply(c, s, locs, j + 1)
  {
    var p0 := Probe(c.cfg, locs[0]);
    var s1 := Call(c, s, p0).1;
    assert Probes(c.cfg, locs[..j + 1]) == [p0] + Probes(c.cfg, locs[1..][..j]);
    assert s1.log + Probes(c.cfg, locs[1..][..j]) == s.log + Probes(c.cfg, locs[..j + 1]);
    assert locs[1..][j] == locs[j + 1];
  }

  lemma FirstProbeReply(c: Ctx, s: State, locs: seq<string>)
    requires locs != []
    ensures ProbeReply(c, s, locs, 0) == Call(c, s, Probe(c.cfg, locs[0])).0
  {
    assert Probes(c.cfg, locs[..0]) == [];
    assert s.log + [] == s.log;
  }

  /** The probes go out in the fixed order, a prefix of the locations, and only the log changes. */
  lemma {:induction false} FindSendsProbes(c: Ctx, s: State, locs: seq<string>) returns (k: nat)
    ensures OnlyLog(s, FindFrom(c, s, locs).1)
    ensures k <= |locs| && Sent(s, FindFrom(c, s, locs).1) == Probes(c.cfg, locs[..k])
    ensures FindFrom(c, s, locs).0.Some? ==> k > 0 && FindFrom(c, s, locs).0.value == locs[k - 1]
    decreases |locs|
  {
    if locs == [] {
      k := 0;
      assert Probes(c.cfg, locs[..0]) == [];
    } else {
      var (r, s1) := Call(c, s, Probe(c.cfg, locs[0]));
      if r.TimedOut? || Hit(c.cfg, r) {
        k := 1;
        assert Probes(c.cfg, locs[..1]) == [Probe(c.cfg, locs[0])];
      } else {
        var rest := locs[1..];
        var k' := FindSendsProbes(c, s1, rest);
        k := k' + 1;
        var t := FindFrom(c, s1, rest).1;
        assert Probes(c.cfg, locs[..k]) == [Probe(c.cfg, locs[0])] + Probes(c.cfg, rest[..k']);
        assert Sent(s, t) == [Probe(c.cfg, locs[0])] + Sent(s1, t);
      }
    }
  }

  /** A location is returned only when its probe is the first that hits. */
  lemma {:induction false} FindReturnsFirstHit(c: Ctx, s: State, locs: seq<string>) returns (k: nat)
    requires FindFrom(c, s, locs).0.Some?
    ensures FirstHitAt(c, s, locs, k) && FindFrom(c, s, locs).0.value == locs[k]
    decreases |locs|
  {
    FirstProbeReply(c, s, locs);
    var (r, s1) := Call(c, s, Probe(c.cfg, locs[0]));
    if Hit(c.cfg, r) {
      k := 0;
    } else {
      var rest := locs[1..];
      var k' := FindReturnsFirstHit(c, s1, rest);
      k := k' + 1;
      forall j | 0 <= j < k' + 1 ensures ProbeReply(c, s1, rest, k') == ProbeReply(c, s, locs, k)
        && (j > 0 ==> ProbeReply(c, s1, rest, j - 1) == ProbeReply(c, s, locs, j))
      {
        ProbeReplyShift(c, s, locs, k');
        if j > 0 {
          ProbeReplyShift(c, s, locs, j - 1);
        }
      }
    }
  }

  /** The first hit is returned unless some probe up to it timed out. */
  lemma {:induction false} FindReachesFirstHit(c: Ctx, s: State, locs: seq<string>, k: nat)
    requires FirstHitAt(c, s, locs, k)
    requires forall j :: 0 <= j <= k ==> !ProbeReply(c, s, locs, j).TimedOut?
    ensures FindFrom(c, s, locs).0 == Some(locs[k])
    decreases |locs|
  {
    FirstProbeReply(c, s, locs);
    if k > 0 {
      var s1 := Call(c, s, Probe(c.cfg, locs[0])).1;
      var rest := locs[1..];
      forall j | 0 <= j <= k - 1 ensures ProbeReply(c, s1, rest, j) == ProbeReply(c, s, locs, j + 1) {
        ProbeReplyShift(c, s, locs, j);
      }
      FindReachesFirstHit(c, s1, rest, k - 1);
    }
  }

  /**
   * The fingerprint comes from one of the three sources, in order: the
   * parsed output of a successful `stat` (0 when `int()` rejects it), else
   * the 32-bit hash of a successful `ls -l`, else the 0 sentinel; a timeout
   * gives 0. `ls -l` is only asked after a `stat` that answered with a
   * nonzero exit code. Only the log changes.
   */
  lemma MtimeSources(c: Ctx, s: State)
    ensures OnlyLog(s, Mtime(c, s).1)
    ensures var (m, t) := Mtime(c, s); var (p, s1) := Find(c, s);
      && (p.None? ==> m == 0 && t == s1)
      && (p.Some? ==>
            var st := c.respond(s1.log, StatArgv(c.cfg, p.value));
            var ls := c.respond(s1.log + [StatArgv(c.cfg, p.value)], LsArgv(c.cfg, p.value));
            && (st.TimedOut? ==> m == 0 && Sent(s1, t) == [StatArgv(c.cfg, p.value)])
            && (Ok(st) ==> m == ParseInt(Strip(st.out)).GetOr(0) && Sent(s1, t) == [StatArgv(c.cfg, p.value)])
            && (st.Done? && st.code != 0 ==> Sent(s1, t) == [StatArgv(c.cfg, p.value), LsArgv(c.cfg, p.value)])
            && (st.Done? && st.code != 0 && Ok(ls) ==> m == c.host.lsHash(ls.out) && 0 <= m < 0x1_0000_0000)
            && (st.Done? && st.code != 0 && !Ok(ls) ==> m == 0)
            && (LsArgv(c.cfg, p.value) in Sent(s1, t) ==> st.Done? && st.code != 0))
  {
    var _ := FindSendsProbes(c, s, Locations(c.cfg));
    var (p, s1) := Find(c, s);
    if p.Some? {
      var (m, t) := Mtime(c, s);
      var st := c.respond(s1.log, StatArgv(c.cfg, p.value));
      if st.Done? && st.code != 0 {
        var s2 := Call(c, s1, StatArgv(c.cfg, p.value)).1;
        CallStep(c, s1, StatArgv(c.cfg, p.value));
        CallStep(c, s2, LsArgv(c.cfg, p.value));
        Chain(s1, s2, t);
      }
      if st.TimedOut? || Ok(st) {
        assert Sent(s1, t) == [StatArgv(c.cfg, p.value)];
        assert StatArgv(c.cfg, p.value) != LsArgv(c.cfg, p.value) by {
          assert StatArgv(c.cfg, p.value)[|StatArgv(c.cfg, p.value)| - 1] != LsArgv(c.cfg, p.value)[|LsArgv(c.cfg, p.value)| - 1] by {
            StatLsDiffer(c.cfg, p.value);
          }
        }
      }
    }
  }

  lemma StatLsDiffer(cfg: Config, path: string)
    ensures RunAs(cfg, "stat -c %Y " + path) != RunAs(cfg, "ls -l " + path)
  {
    var pre := RunAs(cfg, "");
    var a, b := RunAs(cfg, "stat -c %Y " + path), RunAs(cfg, "ls -l " + path);
    assert a[|pre| + 1] == 's' && b[|pre| + 1] == 'l';
  }
}
