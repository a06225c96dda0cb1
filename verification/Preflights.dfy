/** internal/preflight: the write probe of a boot, which runs before anything is
    known of the node. */
module Preflights {
  import opened Types
  import opened Trees
  import opened Names
  import opened Protocol
  import opened Invariant
  import opened Layouts
  import opened Effects
  import opened Disks
  import opened Moves
  import opened Regenerate
  import opened Restore
  import opened Pki

  // ---- what a probe changes of the protocol state ----

  /** At most the kubernetes directory was made and probe files left in it. */
  ghost predicate Probed(s: State, t: State) {
    && |s.store.live| == |t.store.live| == PARTS && Later(s, t)
    && t == s.Live(s.store.live[KUBERNETES := t.store.live[KUBERNETES]], t.store.clock)
    && var k, k' := s.store.live[KUBERNETES], t.store.live[KUBERNETES];
       Swept(k') == Swept(k) || (Swept(k) == map[] && Swept(k') == EMPTY_DIR)
  }

  lemma ProbedTransitive(s: State, t: State, u: State)
    requires Probed(s, t) && Probed(t, u)
    ensures Probed(s, u)
  {
    hide Swept;
  }

  lemma TickIsProbed(s: State, t: State)
    requires Tick(s, t) && |s.store.live| == PARTS
    ensures Probed(s, t)
  {
    hide Swept;
    assert t.store.live == s.store.live[KUBERNETES := t.store.live[KUBERNETES]];
  }

  lemma ProbedSwept(k: Tree, k': Tree)
    requires HasCAs(k) && (Swept(k') == Swept(k) || (Swept(k) == map[] && Swept(k') == EMPTY_DIR))
    ensures Swept(k') == Swept(k)
  {
    hide Sub, Swept, Crt;
    var p := [PKI] + Crt(Authority(ClusterCA));
    assert Exists(k, p);
    assert PROBE[0] != PKI[0];
    SweptReads(k, p);
    BareHasNothing(p);
  }

  /** CA certificates neither come nor go. */
  lemma ProbedCAs(s: State, t: State)
    requires Probed(s, t)
    ensures HasCAs(t.store.live[KUBERNETES]) == HasCAs(s.store.live[KUBERNETES])
    ensures HasCAs(s.store.live[KUBERNETES]) ==> Swept(t.store.live[KUBERNETES]) == Swept(s.store.live[KUBERNETES])
  {
    hide Swept, HasCAs;
    var k, k' := s.store.live[KUBERNETES], t.store.live[KUBERNETES];
    if HasCAs(k) {
      ProbedSwept(k, k');
      SweptGuards(k, k');
    } else if HasCAs(k') {
      if Swept(k') == Swept(k) {
        SweptGuards(k, k');
      } else {
        SweptBare();
        SweptGuards(k', EMPTY_DIR);
        BareHasNoCAs();
      }
    }
  }

  lemma SweptBare()
    ensures Swept(EMPTY_DIR) == EMPTY_DIR && Swept(map[]) == map[]
  {}

  lemma ProbeFileIsProbe()
    ensures IsProbe([PROBE_FILE])
  {
    assert PROBE_FILE[..|PROBE|] == PROBE;
  }

  lemma SweptGraft(k: Tree, u: Tree)
    ensures Swept(Graft(k, [PROBE_FILE], u)) == Swept(k)
  {
    hide Graft;
    ProbeFileIsProbe();
    forall q ensures SameAt(Swept(Graft(k, [PROBE_FILE], u)), Swept(k), q) {
      InGraft(k, [PROBE_FILE], u, q);
      if Under([PROBE_FILE], q) {
        assert q[0] == [PROBE_FILE][0];
      }
    }
    TreeExtensionality(Swept(Graft(k, [PROBE_FILE], u)), Swept(k));
  }

  /** A change of the kubernetes tree that a probe makes is the protocol's step. */
  lemma ProbeStep(l: Layout, m: Moment, m': Moment)
    requires m.mark.pc.Idle? && m'.mark == m.mark && m.clock < m'.clock && Reconciled(View(l, m), View(l, m'))
    requires Swept(Kube(l, m')) == Swept(Kube(l, m)) || (Kube(l, m) == map[] && Kube(l, m') == EMPTY_DIR)
    ensures Can(l, m, m') && Probed(View(l, m), View(l, m'))
  {
    hide Sub, Backups, Exists, Swept, RecordIn;
    SweptBare();
    assert WriteProbe(View(l, m), View(l, m'));
  }

  lemma ProbeCan(l: Layout, m: Moment, u: Tree)
    requires WellFormed(l) && m.mark.pc.Idle?
    ensures var m' := After(l, m, l.kubernetesDir + [PROBE_FILE], u);
            Can(l, m, m') && Probed(View(l, m), View(l, m'))
  {
    hide Sub, Graft, StoreOf, Can, Reconciled, Swept, Probed;
    KubeView(l, m, [PROBE_FILE], u);
    SweptGraft(Kube(l, m), u);
    ProbeStep(l, m, After(l, m, l.kubernetesDir + [PROBE_FILE], u));
  }

  lemma MakeKubeCan(l: Layout, m: Moment)
    requires WellFormed(l) && m.mark.pc.Idle?
    ensures Can(l, m, Made(l, m, l.kubernetesDir)) && Probed(View(l, m), View(l, Made(l, m, l.kubernetesDir)))
  {
    hide Sub, Graft, StoreOf, Can, Reconciled, Swept, Probed;
    if Exists(m.fs, l.kubernetesDir) {
      TickCan(l, m);
      TickProbes(l, m);
    } else {
      assert l.kubernetesDir + [] == l.kubernetesDir;
      KubeView(l, m, [], EMPTY_DIR);
      GraftAll(Kube(l, m), EMPTY_DIR);
      ProbeStep(l, m, After(l, m, l.kubernetesDir, EMPTY_DIR));
    }
  }

  lemma TickProbes(l: Layout, m: Moment)
    ensures Probed(View(l, m), View(l, Ticked(m))) && Tick(View(l, m), View(l, Ticked(m)))
  {
    hide StoreOf, Swept;
    ViewTicked(l, m, Ticked(m));
    TickIsProbed(View(l, m), View(l, Ticked(m)));
  }

  /** In picokube's directory a probe is not seen. */
  lemma VarProbeHidden(l: Layout)
    requires WellFormed(l)
    ensures Hidden(l, l.picoKubeVarDir + [PROBE_FILE])
  {
    UnderSelf(l.picoKubeVarDir, [PROBE_FILE]);
    assert PROBE_FILE[0] != "backups"[0] && PROBE_FILE[0] != "state"[0];
    assert (l.picoKubeVarDir + [PROBE_FILE])[|l.picoKubeVarDir|] == PROBE_FILE;
    assert Elsewhere(l, l.picoKubeVarDir + [PROBE_FILE]);
  }

  // ---- what it changes of the disk ----

  predicate ProbedDir(l: Layout, dir: Path) {
    dir == l.picoKubeVarDir || dir == l.kubernetesDir
  }

  /** Every node is as it was, but that the two directories may have come, and the
      probe files may be anything. */
  ghost predicate OnlyProbed(l: Layout, fs: Tree, fs': Tree) {
    forall p: Path ::
      || SameAt(fs, fs', p)
      || Under(l.picoKubeVarDir + [PROBE_FILE], p) || Under(l.kubernetesDir + [PROBE_FILE], p)
      || (ProbedDir(l, p) && p !in fs && p in fs' && fs'[p] == Dir)
  }

  lemma OnlyProbedTransitive(l: Layout, a: Tree, b: Tree, c: Tree)
    requires OnlyProbed(l, a, b) && OnlyProbed(l, b, c)
    ensures OnlyProbed(l, a, c)
  {
    hide Under;
    forall p: Path
      ensures || SameAt(a, c, p)
              || Under(l.picoKubeVarDir + [PROBE_FILE], p) || Under(l.kubernetesDir + [PROBE_FILE], p)
              || (ProbedDir(l, p) && p !in a && p in c && c[p] == Dir) {
      assert SameAt(a, b, p) || !SameAt(a, b, p);
      assert SameAt(b, c, p) || !SameAt(b, c, p);
    }
  }

  lemma FileOnlyProbed(l: Layout, fs: Tree, dir: Path, u: Tree)
    requires ProbedDir(l, dir)
    ensures OnlyProbed(l, fs, Graft(fs, dir + [PROBE_FILE], u))
  {
    hide Graft;
    forall p: Path | !Under(dir + [PROBE_FILE], p) ensures SameAt(fs, Graft(fs, dir + [PROBE_FILE], u), p) {
      InGraft(fs, dir + [PROBE_FILE], u, p);
    }
  }

  lemma DirOnlyProbed(l: Layout, m: Moment, dir: Path)
    requires ProbedDir(l, dir)
    ensures OnlyProbed(l, m.fs, Made(l, m, dir).fs)
    ensures Exists(Made(l, m, dir).fs, dir) && (!Exists(m.fs, dir) ==> dir in Made(l, m, dir).fs)
  {
    hide Graft, Sub;
    if !Exists(m.fs, dir) {
      MkdirIsGraft(m.fs, dir);
      assert dir + [] == dir;
      InSub(m.fs, dir, []);
      InSub(Mkdir(m.fs, dir), dir, []);
    }
  }

  lemma DirIsRoot(fs: Tree, dir: Path)
    ensures dir in fs <==> [] in Sub(fs, dir)
    ensures Exists(fs, dir) <==> Sub(fs, dir) != map[]
  {
    hide Sub;
    InSub(fs, dir, []);
    assert dir + [] == dir;
  }

  /** What a write probe that returns no error leaves. */
  function ProbedOnce(fs: Tree, dir: Path): Tree {
    Graft(Mkdir(fs, dir), dir + [PROBE_FILE], map[])
  }

  /** And both. */
  function AfterProbe(l: Layout, fs: Tree): Tree {
    ProbedOnce(ProbedOnce(fs, l.picoKubeVarDir), l.kubernetesDir)
  }

  lemma GraftTwice(t: Tree, p: Path, u: Tree, v: Tree)
    ensures Graft(Graft(t, p, u), p, v) == Graft(t, p, v)
  {
    hide Graft;
    forall q ensures SameAt(Graft(Graft(t, p, u), p, v), Graft(t, p, v), q) {
      InGraft(Graft(t, p, u), p, v, q);
      InGraft(t, p, u, q);
      InGraft(t, p, v, q);
    }
    TreeExtensionality(Graft(Graft(t, p, u), p, v), Graft(t, p, v));
  }

  lemma GraftNothing(t: Tree, p: Path)
    ensures Sub(Graft(t, p, map[]), p) == map[]
    ensures Graft(t, p, map[]) == t <==> !Exists(t, p)
  {
    hide Graft, Sub;
    SubGraftSame(t, p, map[]);
    DirIsRoot(t, p);
    if !Exists(t, p) {
      forall q ensures SameAt(Graft(t, p, map[]), t, q) {
        InGraft(t, p, map[], q);
        if Under(p, q) {
          assert q == p + q[|p|..];
          InSub(t, p, q[|p|..]);
        }
      }
      TreeExtensionality(Graft(t, p, map[]), t);
    }
  }

  /** One probe leaves the disk as it was exactly when the directory was there and no
      file of the name of the probe's. */
  lemma ProbedOnceIsSame(fs: Tree, dir: Path)
    ensures ProbedOnce(fs, dir) == fs <==> Exists(fs, dir) && !Exists(fs, dir + [PROBE_FILE])
  {
    hide Graft, Sub;
    GraftNothing(Mkdir(fs, dir), dir + [PROBE_FILE]);
    if !Exists(fs, dir) {
      MkdirIsThere(fs, dir);
      InGraft(Mkdir(fs, dir), dir + [PROBE_FILE], map[], dir);
      assert dir in ProbedOnce(fs, dir);
      DirIsRoot(fs, dir);
    }
  }

  lemma MkdirIsThere(fs: Tree, dir: Path)
    requires !Exists(fs, dir)
    ensures dir in Mkdir(fs, dir)
  {}

  /** A probe of one directory is not seen in the other. */
  lemma ProbedOnceElsewhere(fs: Tree, dir: Path, q: Path)
    requires Apart(dir, q)
    ensures Sub(ProbedOnce(fs, dir), q) == Sub(fs, q)
  {
    hide Graft, Sub;
    SubMkdir(fs, dir, q);
    ApartSymmetric(dir, q);
    ApartBelow(q, dir, [PROBE_FILE]);
    ApartSymmetric(q, dir + [PROBE_FILE]);
    SubGraftApart(Mkdir(fs, dir), dir + [PROBE_FILE], map[], q);
  }

  /** A preflight that passes leaves nothing behind exactly when both directories were
      there, and no file under the name of a probe's. */
  lemma AfterProbeIsSame(l: Layout, fs: Tree)
    requires WellFormed(l)
    ensures AfterProbe(l, fs) == fs <==>
            && Exists(fs, l.picoKubeVarDir) && !Exists(fs, l.picoKubeVarDir + [PROBE_FILE])
            && Exists(fs, l.kubernetesDir) && !Exists(fs, l.kubernetesDir + [PROBE_FILE])
  {
    hide Graft, Sub, ProbedOnce, Exists;
    var fs1 := ProbedOnce(fs, l.picoKubeVarDir);
    RootsApart(l, 0, 1, [], []);
    RootsApart(l, 1, 0, [], []);
    assert l.picoKubeVarDir + [] == l.picoKubeVarDir && l.kubernetesDir + [] == l.kubernetesDir;
    ProbedOnceIsSame(fs, l.picoKubeVarDir);
    ProbedOnceIsSame(fs, l.kubernetesDir);
    if AfterProbe(l, fs) == fs {
      ProbedOnceElsewhere(fs1, l.kubernetesDir, l.picoKubeVarDir);
      ProbedSubSame(fs, fs1, l.picoKubeVarDir);
    }
  }

  /** The first probe did something if what is at its directory has changed. */
  lemma ProbedSubSame(fs: Tree, fs1: Tree, dir: Path)
    requires fs1 == ProbedOnce(fs, dir) && Sub(fs1, dir) == Sub(fs, dir)
    ensures fs1 == fs
  {
    hide Graft, Sub;
    forall q ensures SameAt(fs1, fs, q) {
      InGraft(Mkdir(fs, dir), dir + [PROBE_FILE], map[], q);
      if Under(dir, q) {
        assert q == dir + q[|dir|..];
        InSub(fs, dir, q[|dir|..]);
        InSub(fs1, dir, q[|dir|..]);
      } else {
        NotBelowProbe(dir, q);
      }
    }
    TreeExtensionality(fs1, fs);
  }

  lemma NotBelowProbe(dir: Path, q: Path)
    requires !Under(dir, q)
    ensures !Under(dir + [PROBE_FILE], q) && q != dir
  {
    UnderSelf(dir, [PROBE_FILE]);
    if Under(dir + [PROBE_FILE], q) {
      UnderTransitive(dir, dir + [PROBE_FILE], q);
    }
    UnderSelf(dir, []);
    assert dir + [] == dir;
  }

  // ---- the calls ----

  /** `os.MkdirAll` of one of the two directories. */
  method MakeProbedDir(d: Disk, dir: Path) returns (ok: bool)
    requires d.Valid() && d.mark.pc.Idle? && ProbedDir(d.l, dir)
    modifies d
    ensures d.clock == old(d.clock) + 1 && ok == d.faults(old(d.clock)).ok && d.mark == old(d.mark)
    ensures ok ==> Exists(d.fs, dir) && (!old(Exists(d.fs, dir)) ==> dir in d.fs)
    ensures d.fs == if ok then Mkdir(old(d.fs), dir) else old(d.fs)
    ensures dir == d.l.picoKubeVarDir ==> Tick(old(d.State()), d.State())
    ensures OnlyProbed(d.l, old(d.fs), d.fs) && Probed(old(d.State()), d.State())
    ensures d.Valid() && d.log == old(d.log) + [d.Now()]
  {
    hide Can, Sub, Graft, StoreOf, Steps, WellFormed, Probed, OnlyProbed, Exists;
    ghost var m := d.Now();
    if dir == d.l.picoKubeVarDir {
      MadeCan(d.l, m, dir);
      SizeOfView(d.l, m);
      TickIsProbed(View(d.l, m), View(d.l, Made(d.l, m, dir)));
    } else {
      MakeKubeCan(d.l, m);
    }
    TickCan(d.l, m);
    TickProbes(d.l, m);
    DirOnlyProbed(d.l, m, dir);
    OnlyProbedSame(d.l, m.fs);
    if !Exists(m.fs, dir) { MkdirIsGraft(m.fs, dir); }
    ok := d.MkdirAll(dir);
  }

  lemma SizeOfView(l: Layout, m: Moment)
    ensures |View(l, m).store.live| == PARTS
  {
    hide Sub, Backups, Exists, RecordIn;
  }

  lemma OnlyProbedSame(l: Layout, fs: Tree)
    ensures OnlyProbed(l, fs, fs)
  {}

  lemma FileCan(l: Layout, m: Moment, dir: Path, u: Tree)
    requires WellFormed(l) && m.mark.pc.Idle? && ProbedDir(l, dir)
    ensures var m' := After(l, m, dir + [PROBE_FILE], u);
            && Can(l, m, m') && Can(l, m, m'.(mark := m.mark)) && Probed(View(l, m), View(l, m'))
            && (dir == l.picoKubeVarDir ==> Tick(View(l, m), View(l, m')))
  {
    hide Sub, Graft, StoreOf, Can, Probed, WellFormed, Hidden;
    var m' := After(l, m, dir + [PROBE_FILE], u);
    assert m'.(mark := m.mark) == m';
    if dir == l.picoKubeVarDir {
      VarProbeHidden(l);
      HiddenCan(l, m, dir + [PROBE_FILE]);
      SizeOfView(l, m);
      TickIsProbed(View(l, m), View(l, m'));
    } else {
      ProbeCan(l, m, u);
    }
  }

  lemma NotUnderProbe(l: Layout, dir: Path)
    requires WellFormed(l) && ProbedDir(l, dir)
    ensures !Under(dir + [PROBE_FILE], l.picoKubeVarDir)
  {
    NotInBackups(l, [PROBE_FILE]);
  }

  /** `os.CreateTemp` and `os.Remove`. A death in between leaves the file. */
  method CreateAndRemove(d: Disk, dir: Path) returns (ok: bool)
    requires d.Valid() && d.mark.pc.Idle? && ProbedDir(d.l, dir)
    modifies d
    ensures old(d.clock) <= d.clock && (!ok ==> Faulty(d.faults, old(d.clock), d.clock)) && d.mark == old(d.mark)
    ensures dir == d.l.picoKubeVarDir ==> Tick(old(d.State()), d.State())
    ensures ok ==> d.fs == Graft(old(d.fs), dir + [PROBE_FILE], map[])
    ensures OnlyProbed(d.l, old(d.fs), d.fs) && Probed(old(d.State()), d.State())
    ensures d.Valid() && old(d.log) <= d.log
  {
    hide Can, Sub, Graft, StoreOf, Steps, WellFormed, Probed, OnlyProbed, Exists;
    ghost var m := d.Now();
    var p := dir + [PROBE_FILE];
    NotUnderProbe(d.l, dir);
    forall u: Tree ensures Can(d.l, m, After(d.l, m, p, u)) {
      FileCan(d.l, m, dir, u);
    }
    ok := d.Write(p, Trees.Leaf(Bytes(0)));
    ghost var left := if ok then Trees.Leaf(Bytes(0)) else d.faults(m.clock).debris;
    FileCan(d.l, m, dir, left);
    FileOnlyProbed(d.l, m.fs, dir, left);
    if !ok { return; }
    ghost var m1 := d.Now();
    FileCan(d.l, m1, dir, map[]);
    FileOnlyProbed(d.l, m1.fs, dir, map[]);
    OnlyProbedSame(d.l, m1.fs);
    TickCan(d.l, m1);
    TickProbes(d.l, m1);
    ok := d.Remove(p, d.mark);
    GraftTwice(m.fs, p, left, map[]);
    OnlyProbedTransitive(d.l, m.fs, m1.fs, d.fs);
    ProbedTransitive(View(d.l, m), View(d.l, m1), d.State());
  }

  // ---- from which moment on picokube's directory is there ----

  /** A directory that exists is a node of its own. */
  ghost predicate Settled(l: Layout, fs: Tree) {
    forall dir | ProbedDir(l, dir) && Exists(fs, dir) :: dir in fs
  }

  /** From the `n`th moment on either nothing happens or picokube's directory is there. */
  ghost predicate Grounded(l: Layout, log: seq<Moment>, n: nat)
    requires n > 0
  {
    && n < |log| && log[n].mark == log[n - 1].mark
    && forall i | n <= i < |log| ::
      || (log[i].fs == log[i - 1].fs && log[i].mark == log[i - 1].mark)
      || (l.picoKubeVarDir in log[i].fs && (log[i].mark == log[i - 1].mark || l.picoKubeVarDir in log[i - 1].fs))
  }

  lemma {:induction false} RootedAlong(l: Layout, log: seq<Moment>, i: nat, j: nat)
    requires Rooted(l, log) && i <= j < |log| && l.picoKubeVarDir in log[i].fs
    ensures l.picoKubeVarDir in log[j].fs
  {
    if i < j {
      RootedAlong(l, log, i, j - 1);
      assert l.picoKubeVarDir in log[j - 1 + 1].fs;
    }
  }

  lemma GroundedOn(l: Layout, log: seq<Moment>, more: seq<Moment>, n: nat)
    requires 0 < n <= |log| && Grounded(l, log, n) && log <= more && Rooted(l, more)
    requires l.picoKubeVarDir in log[|log| - 1].fs
    ensures Grounded(l, more, n)
  {
    forall i | |log| - 1 <= i < |more| ensures l.picoKubeVarDir in more[i].fs {
      RootedAlong(l, more, |log| - 1, i);
    }
    forall i | n <= i < |more|
      ensures || (more[i].fs == more[i - 1].fs && more[i].mark == more[i - 1].mark)
              || (l.picoKubeVarDir in more[i].fs && (more[i].mark == more[i - 1].mark || l.picoKubeVarDir in more[i - 1].fs)) {
      if i < |log| {
        assert more[i] == log[i] && more[i - 1] == log[i - 1];
      }
    }
  }

  lemma ProbedDirStays(l: Layout, fs: Tree, fs': Tree, dir: Path)
    requires WellFormed(l) && OnlyProbed(l, fs, fs') && ProbedDir(l, dir) && dir in fs
    ensures dir in fs'
  {
    RootsApart(l, 0, 1, [PROBE_FILE], []);
    RootsApart(l, 1, 0, [PROBE_FILE], []);
    assert l.picoKubeVarDir + [] == l.picoKubeVarDir && l.kubernetesDir + [] == l.kubernetesDir;
    assert SameAt(fs, fs', dir) || !SameAt(fs, fs', dir);
  }

  lemma TickKeepsKube(l: Layout, a: Moment, b: Moment)
    requires Tick(View(l, a), View(l, b))
    ensures Kube(l, b) == Kube(l, a)
  {
    hide Sub, Backups, Exists, RecordIn;
    assert View(l, a).store.live[KUBERNETES] == Kube(l, a) && View(l, b).store.live[KUBERNETES] == Kube(l, b);
  }

  /** FSWritable, on picokube's directory and the kubernetes directory. On success the
      directories are there and no probe file is. */
  method FSWritable(d: Disk) returns (ok: bool)
    requires d.Valid() && d.mark.pc.Idle?
    modifies d
    ensures old(d.clock) <= d.clock && (!ok ==> Faulty(d.faults, old(d.clock), d.clock)) && d.mark == old(d.mark)
    ensures ok ==> d.fs == AfterProbe(d.l, old(d.fs))
    ensures OnlyProbed(d.l, old(d.fs), d.fs) && Probed(old(d.State()), d.State())
    ensures Settled(d.l, old(d.fs)) ==> Grounded(d.l, d.log, |old(d.log)|)
    ensures Settled(d.l, old(d.fs)) && ok ==> d.l.picoKubeVarDir in d.fs && d.l.kubernetesDir in d.fs
    ensures d.Valid() && old(d.log) <= d.log
  {
    hide Can, Sub, Graft, StoreOf, Steps, WellFormed, Probed, OnlyProbed, Exists, Grounded;
    ghost var m, n := d.Now(), |d.log|;
    ok := MakeProbedDir(d, d.l.picoKubeVarDir);
    ghost var log := d.log;
    FirstGrounded(d.l, log, n);
    if !ok { return; }
    ghost var m1 := d.Now();
    ok := CreateAndRemove(d, d.l.picoKubeVarDir);
    OnlyProbedTransitive(d.l, m.fs, m1.fs, d.fs);
    ProbedTransitive(View(d.l, m), View(d.l, m1), d.State());
    if ok {
      ghost var m2 := d.Now();
      ok := ProbeKube(d);
      OnlyProbedTransitive(d.l, m.fs, m2.fs, d.fs);
      ProbedTransitive(View(d.l, m), View(d.l, m2), d.State());
      TickKeepsKube(d.l, m, m1);
      TickKeepsKube(d.l, m1, m2);
      KubeSettled(d.l, m.fs, m2.fs);
    }
    if Settled(d.l, m.fs) {
      GroundedOn(d.l, log, d.log, n);
      LastRooted(d.l, log, d.log);
    }
  }

  lemma KubeSettled(l: Layout, fs: Tree, fs': Tree)
    requires Sub(fs', l.kubernetesDir) == Sub(fs, l.kubernetesDir)
    ensures Settled(l, fs) && Exists(fs', l.kubernetesDir) ==> l.kubernetesDir in fs'
  {
    hide Sub;
    DirIsRoot(fs, l.kubernetesDir);
    DirIsRoot(fs', l.kubernetesDir);
  }

  lemma FirstGrounded(l: Layout, log: seq<Moment>, n: nat)
    requires 0 < n && |log| == n + 1 && log[n].mark == log[n - 1].mark
    requires log[n].fs == log[n - 1].fs || l.picoKubeVarDir in log[n].fs
    ensures Grounded(l, log, n)
  {}

  lemma LastRooted(l: Layout, log: seq<Moment>, more: seq<Moment>)
    requires 0 < |log| && log <= more && Rooted(l, more) && l.picoKubeVarDir in log[|log| - 1].fs
    ensures l.picoKubeVarDir in more[|more| - 1].fs
  {
    RootedAlong(l, more, |log| - 1, |more| - 1);
  }

  /** The second of the two. */
  method ProbeKube(d: Disk) returns (ok: bool)
    requires d.Valid() && d.mark.pc.Idle?
    modifies d
    ensures old(d.clock) <= d.clock && (!ok ==> Faulty(d.faults, old(d.clock), d.clock)) && d.mark == old(d.mark)
    ensures ok ==> d.fs == ProbedOnce(old(d.fs), d.l.kubernetesDir)
    ensures OnlyProbed(d.l, old(d.fs), d.fs) && Probed(old(d.State()), d.State())
    ensures ok && old(Exists(d.fs, d.l.kubernetesDir) ==> d.l.kubernetesDir in d.fs) ==> d.l.kubernetesDir in d.fs
    ensures d.Valid() && old(d.log) <= d.log
  {
    hide Can, Sub, Graft, StoreOf, Steps, WellFormed, Probed, OnlyProbed, Exists;
    ghost var m := d.Now();
    ok := MakeProbedDir(d, d.l.kubernetesDir);
    if !ok { return; }
    ghost var m1 := d.Now();
    ok := CreateAndRemove(d, d.l.kubernetesDir);
    OnlyProbedTransitive(d.l, m.fs, m1.fs, d.fs);
    ProbedTransitive(View(d.l, m), View(d.l, m1), d.State());
    if d.l.kubernetesDir in m1.fs {
      ProbedDirStays(d.l, m1.fs, d.fs, d.l.kubernetesDir);
    }
  }
}
