/** internal/initialize: `picokube init` on a clean node. A successful run leaves what
    the boot protocol starts from. */
module Initialize {
  import opened Types
  import opened Trees
  import opened Names
  import opened Protocol
  import opened Layouts
  import opened Effects
  import opened Disks
  import opened Pki
  import opened Regenerate
  import opened Rotation
  import opened Teardown
  import opened Preflights
  import opened Boot

  /** The files of the node while `init` works on it, with every state it passed. */
  class Files {
    const l: Layout
    const faults: nat -> Outcome
    var fs: Tree
    var calls: nat
    ghost var log: seq<Tree>

    ghost predicate Valid()
      reads this
    {
      WellFormed(l) && |log| > 0 && log[|log| - 1] == fs
    }

    constructor (l: Layout, faults: nat -> Outcome, fs: Tree)
      requires WellFormed(l)
      ensures Valid() && this.l == l && this.faults == faults && this.fs == fs && log == [fs]
    {
      this.l, this.faults, this.fs, this.calls, this.log := l, faults, fs, 0, [fs];
    }

    /** `os.MkdirAll`. */
    method Make(p: Path) returns (ok: bool)
      requires Valid()
      modifies this
      ensures Valid() && log == old(log) + [fs]
      ensures fs == if ok then Mkdir(old(fs), p) else old(fs)
      ensures calls == old(calls) + 1 && ok == faults(old(calls)).ok
    {
      ok := faults(calls).ok;
      if ok {
        fs := Mkdir(fs, p);
      }
      calls, log := calls + 1, log + [fs];
    }

    /** Writing a file, or what kubeadm writes below a directory. */
    method Put(p: Path, t: Tree) returns (ok: bool)
      requires Valid()
      modifies this
      ensures Valid() && log == old(log) + [fs]
      ensures ok ==> fs == Graft(old(fs), p, t)
      ensures exists u: Tree :: fs == Graft(old(fs), p, u)
      ensures calls == old(calls) + 1 && ok == faults(old(calls)).ok
    {
      hide Graft;
      ok := faults(calls).ok;
      var u := if ok then t else faults(calls).debris;
      fs := Graft(fs, p, u);
      calls, log := calls + 1, log + [fs];
    }

    /** A call that fails for what it finds, having written anything. */
    method Fail(p: Path)
      requires Valid()
      modifies this
      ensures Valid() && log == old(log) + [fs]
      ensures exists u: Tree :: fs == Graft(old(fs), p, u)
      ensures calls == old(calls) + 1
    {
      hide Graft;
      var u := faults(calls).debris;
      fs := Graft(fs, p, u);
      calls, log := calls + 1, log + [fs];
    }

    method Move(src: Path, dst: Path) returns (ok: bool)
      requires Valid()
      modifies this
      ensures Valid() && log == old(log) + [fs]
      ensures fs == if ok then Graft(Graft(old(fs), src, map[]), dst, Sub(old(fs), src)) else old(fs)
      ensures calls == old(calls) + 1 && ok == faults(old(calls)).ok
    {
      hide Graft, Sub;
      ok := faults(calls).ok;
      if ok {
        fs := Graft(Graft(fs, src, map[]), dst, Sub(fs, src));
      }
      calls, log := calls + 1, log + [fs];
    }

    /** Kubelet fills its own PKI directory. */
    method KubeletSaves(t: Tree)
      requires Valid()
      modifies this
      ensures Valid() && log == old(log) + [fs] && calls == old(calls)
      ensures fs == Graft(old(fs), l.kubeletDir + ["pki"], t)
    {
      hide Graft;
      fs := Graft(fs, l.kubeletDir + ["pki"], t);
      log := log + [fs];
    }

    /** A call that changes no file here. */
    method Ask() returns (ok: bool)
      requires Valid()
      modifies this
      ensures Valid() && log == old(log) + [fs] && fs == old(fs)
      ensures calls == old(calls) + 1 && ok == faults(old(calls)).ok
    {
      ok := faults(calls).ok;
      calls, log := calls + 1, log + [fs];
    }
  }

  // ---- what has been seeded ----

  /** The kubernetes directory as init found it, and the PKI directory it made of it. */
  datatype Base = Base(was: Tree, pki: Tree)

  predicate PkiReady(pki: Tree) {
    (forall ca: CA :: Present(pki, Authority(ca))) && forall leaf | IsPki(leaf) :: Signed(pki, leaf)
  }

  /** The client certificate in `file` is signed by the cluster CA in `pki`. */
  predicate SignedUnder(file: Tree, pki: Tree) {
    var c, ca := ClientIn(file), CertAt(pki, Crt(Authority(ClusterCA)));
    c.Some? && ca.Some? && c.value.issuer == ca.value.key
  }

  predicate ConfReady(k: Tree, name: string) {
    SignedUnder(Sub(k, [name]), Sub(k, [PKI]))
  }

  /** A kubeconfig that was there is kept, one that was not is signed by the CA. */
  ghost predicate ConfDone(k: Tree, name: string, base: Base) {
    if Sub(base.was, [name]) == map[] then ConfReady(k, name)
    else Sub(k, [name]) == Sub(base.was, [name]) && IsKubeconfig(Sub(k, [name]))
  }

  /** The picokube directory is there with no backups in it. */
  predicate VarReady(v: Tree) {
    [] in v && Sub(v, ["backups"]) == map[]
  }

  ghost predicate Seeded(l: Layout, fs: Tree, names: set<string>, base: Base) {
    && VarReady(Sub(fs, l.picoKubeVarDir))
    && PkiReady(base.pki) && Sub(Sub(fs, l.kubernetesDir), [PKI]) == base.pki
    && forall name | name in names :: ConfDone(Sub(fs, l.kubernetesDir), name, base)
  }

  // ---- what init can make use of ----

  /** The PKI directory of `k`, made if need be. */
  function PkiFound(k: Tree): Tree {
    if Sub(k, [PKI]) == map[] then EMPTY_DIR else Sub(k, [PKI])
  }

  /** `CreateKubeConfigFile` succeeds: it keeps a kubeconfig for the expected cluster,
      fails on any other file, and writes a missing one if it holds the CA's key. */
  predicate ConfFits(k: Tree, name: string, cluster: int, pki: Tree) {
    var file := Sub(k, [name]);
    if file == map[] then Owned(pki, ClusterCA) else IsKubeconfig(file) && file[[]].data.cluster == cluster
  }

  /** Everything that is there already in the kubernetes directory can be used. */
  ghost predicate Fits(k: Tree, issue: Issuance) {
    && Assets(PkiFound(k), issue).Ok?
    && forall name | name in CONFS || name == SUPER_ADMIN ::
         ConfFits(k, name, issue([name]).cluster, Assets(PkiFound(k), issue).value)
  }

  function BaseOf(k: Tree, issue: Issuance): Base
    requires Assets(PkiFound(k), issue).Ok?
  {
    Base(k, Assets(PkiFound(k), issue).value)
  }

  /** A node without a kubernetes directory has nothing that does not fit. */
  lemma NothingFits(issue: Issuance)
    ensures Fits(map[], issue)
  {
    hide Sub, Assets;
    NothingThere([PKI]);
    EmptyIsIssuable(issue);
    SeededPki(issue);
    forall name ensures Sub(map[], [name]) == map[] {
      NothingThere([name]);
    }
  }

  // ---- what is watched along the log ----

  /** From which moment of the log on the picokube directory has been there, and,
      while `quiet`, from which super-admin.conf has not. */
  datatype Since = Since(marked: nat, quiet: bool, clear: nat)

  /** And, while `found`, super-admin.conf is as it was found. */
  datatype Watch = Watch(span: Since, found: bool, base: Base)

  ghost predicate Throughout(l: Layout, log: seq<Tree>, w: Since) {
    && (forall i | w.marked <= i < |log| :: [] in Sub(log[i], l.picoKubeVarDir))
    && (w.quiet ==> forall i | w.clear <= i < |log| :: NoSuperAdmin(Sub(log[i], l.kubernetesDir)))
  }

  lemma OneMore(l: Layout, log: seq<Tree>, w: Since, fs: Tree)
    requires Throughout(l, log, w) && [] in Sub(fs, l.picoKubeVarDir)
    requires w.quiet ==> NoSuperAdmin(Sub(fs, l.kubernetesDir))
    ensures Throughout(l, log + [fs], w)
  {
    hide Sub, NoSuperAdmin;
  }

  lemma FromHere(l: Layout, log: seq<Tree>, quiet: bool)
    ensures Throughout(l, log, Since(|log|, quiet, |log|))
  {}

  lemma KubeEntry(l: Layout, fs: Tree, a: string, x: Path, t: Tree)
    requires WellFormed(l)
    ensures var fs' := Graft(fs, l.kubernetesDir + ([a] + x), t);
            && (forall b | b != a :: Sub(Sub(fs', l.kubernetesDir), [b]) == Sub(Sub(fs, l.kubernetesDir), [b]))
            && Sub(Sub(fs', l.kubernetesDir), [a]) == Graft(Sub(Sub(fs, l.kubernetesDir), [a]), x, t)
            && Sub(fs', l.picoKubeVarDir) == Sub(fs, l.picoKubeVarDir)
  {
    hide Sub, Graft;
    var k := Sub(fs, l.kubernetesDir);
    SubGraftAbove(fs, l.kubernetesDir, [a] + x, t);
    forall b | b != a ensures Sub(Graft(k, [a] + x, t), [b]) == Sub(k, [b]) {
      OtherEntry(k, a, x, t, b);
    }
    InEntry(k, a, x, t);
    RootsApart(l, 1, 0, [a] + x, []);
    assert l.picoKubeVarDir + [] == l.picoKubeVarDir;
    SubGraftApart(fs, l.kubernetesDir + ([a] + x), t, l.picoKubeVarDir);
  }

  lemma KubeletEntry(l: Layout, fs: Tree, x: Path, t: Tree)
    requires WellFormed(l)
    ensures var fs' := Graft(fs, l.kubeletDir + x, t);
            Sub(fs', l.kubernetesDir) == Sub(fs, l.kubernetesDir) && Sub(fs', l.picoKubeVarDir) == Sub(fs, l.picoKubeVarDir)
  {
    hide Sub, Graft;
    RootsApart(l, 2, 1, x, []);
    RootsApart(l, 2, 0, x, []);
    assert l.kubernetesDir + [] == l.kubernetesDir && l.picoKubeVarDir + [] == l.picoKubeVarDir;
    SubGraftApart(fs, l.kubeletDir + x, t, l.kubernetesDir);
    SubGraftApart(fs, l.kubeletDir + x, t, l.picoKubeVarDir);
  }

  /** Below the state directory. */
  lemma StateEntry(l: Layout, fs: Tree, x: Path, t: Tree)
    requires WellFormed(l)
    ensures var fs' := Graft(fs, l.StateDir() + x, t);
            && Sub(fs', l.kubernetesDir) == Sub(fs, l.kubernetesDir)
            && (VarReady(Sub(fs, l.picoKubeVarDir)) ==> VarReady(Sub(fs', l.picoKubeVarDir)))
  {
    hide Sub, Graft;
    var v := Sub(fs, l.picoKubeVarDir);
    assert l.StateDir() + x == l.picoKubeVarDir + (["state"] + x);
    RootsApart(l, 0, 1, ["state"] + x, []);
    assert l.kubernetesDir + [] == l.kubernetesDir;
    SubGraftApart(fs, l.StateDir() + x, t, l.kubernetesDir);
    SubGraftAbove(fs, l.picoKubeVarDir, ["state"] + x, t);
    InGraft(v, ["state"] + x, t, []);
    assert |"state"| == 5 && |"backups"| == 7;
    OtherEntry(v, "state", x, t, "backups");
  }

  /** An entry other than the PKI directory and the named kubeconfigs. */
  lemma SeededStays(l: Layout, fs: Tree, a: string, x: Path, t: Tree, names: set<string>, base: Base)
    requires WellFormed(l) && Seeded(l, fs, names, base) && a != PKI && a !in names
    ensures Seeded(l, Graft(fs, l.kubernetesDir + ([a] + x), t), names, base)
  {
    hide Sub, Graft, PkiReady, VarReady;
    KubeEntry(l, fs, a, x, t);
  }

  // ---- the steps ----

  /** At every moment from the `n`th on the picokube directory, once made, is there, and,
      when `calm`, super-admin.conf is not. */
  ghost predicate Clear(l: Layout, log: seq<Tree>, n: nat, calm: bool)
    requires n > 0
  {
    forall i | n <= i < |log| ::
      && (calm ==> NoSuperAdmin(Sub(log[i], l.kubernetesDir)))
      && (log[i] == log[i - 1] || [] in Sub(log[i], l.picoKubeVarDir))
  }

  lemma ClearOn(l: Layout, log: seq<Tree>, more: seq<Tree>, n: nat, calm: bool)
    requires 0 < n <= |log| && Clear(l, log, n, calm) && log <= more && Throughout(l, more, Since(|log|, calm, |log|))
    ensures Clear(l, more, n, calm)
  {
    hide Sub, NoSuperAdmin;
    forall i | n <= i < |more|
      ensures calm ==> NoSuperAdmin(Sub(more[i], l.kubernetesDir))
      ensures more[i] == more[i - 1] || [] in Sub(more[i], l.picoKubeVarDir) {
      if i < |log| {
        assert more[i] == log[i] && more[i - 1] == log[i - 1];
      }
    }
  }

  /** The entries of the kubernetes directory are as found, but for a probe's. */
  ghost predicate AsFound(k: Tree, k0: Tree) {
    forall a | a != PROBE_FILE :: Sub(k, [a]) == Sub(k0, [a])
  }

  /** FSWritable: both directories are made, and a file is written and removed in each. */
  method Preflight(f: Files, ghost k0: Tree) returns (ok: bool)
    requires f.Valid() && !Exists(f.fs, f.l.picoKubeVarDir) && k0 == Sub(f.fs, f.l.kubernetesDir)
    modifies f
    ensures old(f.calls) <= f.calls && (!ok ==> Faulty(f.faults, old(f.calls), f.calls))
    ensures f.Valid() && old(f.log) < f.log
    ensures ok ==> VarReady(Sub(f.fs, f.l.picoKubeVarDir)) && AsFound(Sub(f.fs, f.l.kubernetesDir), k0)
    ensures Clear(f.l, f.log, |old(f.log)|, NoSuperAdmin(k0))
  {
    hide Sub, Graft, Mkdir, VarReady, NoSuperAdmin, AsFound;
    ghost var fs0, n, calm := f.fs, |f.log|, NoSuperAdmin(k0);
    ok := f.Make(f.l.picoKubeVarDir);
    if !ok { return; }
    VarMade(f.l, fs0);
    EmptyDirHasRoot();
    ghost var log1 := f.log;
    FromHere(f.l, log1, calm);
    ok := Probe(f, f.l.picoKubeVarDir, Since(|log1|, calm, |log1|));
    ClearOn(f.l, log1, f.log, n, calm);
    if !ok { return; }
    EmptyDirIsReady();
    RootPair(f.l);
    ghost var fs1, log2 := f.fs, f.log;
    ok := f.Make(f.l.kubernetesDir);
    KubeMade(f.l, fs1);
    StillAsFound(k0, Sub(fs1, f.l.kubernetesDir), Sub(f.fs, f.l.kubernetesDir));
    OneMore(f.l, log2, Since(|log1|, calm, |log1|), f.fs);
    if ok {
      ghost var k := Sub(f.fs, f.l.kubernetesDir);
      ok := Probe(f, f.l.kubernetesDir, Since(|log1|, calm, |log1|));
      ProbedAsFound(k, k0);
    }
    ClearOn(f.l, log1, f.log, n, calm);
  }

  lemma StillAsFound(k0: Tree, k: Tree, k': Tree)
    requires k == k0 && (k' == k || (k == map[] && k' == EMPTY_DIR))
    ensures AsFound(k', k0) && NoSuperAdmin(k') == NoSuperAdmin(k0)
  {
    hide Sub, NoSuperAdmin;
    forall a ensures Sub(k', [a]) == Sub(k0, [a]) {
      NothingThere([a]);
      EmptyDirHasNothing(a);
    }
    SameSuper(k0, k');
  }

  lemma ProbedAsFound(k: Tree, k0: Tree)
    requires AsFound(k, k0)
    ensures AsFound(Graft(k, [PROBE_FILE], map[]), k0)
  {
    hide Sub, Graft;
    var k' := Graft(k, [PROBE_FILE], map[]);
    forall a | a != PROBE_FILE ensures Sub(k', [a]) == Sub(k0, [a]) {
      OtherEntry(k, PROBE_FILE, [], map[], a);
      assert [PROBE_FILE] + [] == [PROBE_FILE];
    }
  }

  lemma RootPair(l: Layout)
    requires WellFormed(l)
    ensures Apart(l.picoKubeVarDir, l.kubernetesDir) && Apart(l.kubernetesDir, l.picoKubeVarDir)
  {
    RootsApart(l, 0, 1, [], []);
    assert l.picoKubeVarDir + [] == l.picoKubeVarDir && l.kubernetesDir + [] == l.kubernetesDir;
    ApartSymmetric(l.picoKubeVarDir, l.kubernetesDir);
  }

  lemma EmptyDirHasRoot()
    ensures [] in EMPTY_DIR
  {}

  lemma EmptyDirIsReady()
    ensures VarReady(EMPTY_DIR)
  {
    hide Sub;
    EmptyDirHasNothing("backups");
  }

  lemma SameSuper(k: Tree, k': Tree)
    requires Sub(k', [SUPER_ADMIN]) == Sub(k, [SUPER_ADMIN])
    ensures NoSuperAdmin(k') == NoSuperAdmin(k)
  {}

  /** `os.CreateTemp` and `os.Remove` of one write probe. */
  method Probe(f: Files, dir: Path, ghost w: Since) returns (ok: bool)
    requires f.Valid() && (dir == f.l.picoKubeVarDir || dir == f.l.kubernetesDir)
    requires Throughout(f.l, f.log, w) && [] in Sub(f.fs, f.l.picoKubeVarDir)
    requires w.quiet ==> NoSuperAdmin(Sub(f.fs, f.l.kubernetesDir))
    modifies f
    ensures old(f.calls) <= f.calls && (!ok ==> Faulty(f.faults, old(f.calls), f.calls))
    ensures ok ==> Sub(f.fs, dir) == Graft(old(Sub(f.fs, dir)), [PROBE_FILE], map[])
                   && (old(Sub(f.fs, dir)) == EMPTY_DIR ==> Sub(f.fs, dir) == EMPTY_DIR)
    ensures forall p | Apart(dir, p) :: Sub(f.fs, p) == old(Sub(f.fs, p))
    ensures [] in Sub(f.fs, f.l.picoKubeVarDir) && (w.quiet ==> NoSuperAdmin(Sub(f.fs, f.l.kubernetesDir)))
    ensures f.Valid() && old(f.log) <= f.log && Throughout(f.l, f.log, w)
  {
    hide Sub, Graft, NoSuperAdmin, Throughout;
    ghost var fs0, log0 := f.fs, f.log;
    var p := dir + [PROBE_FILE];
    ok := f.Put(p, Trees.Leaf(Bytes(0)));
    ghost var u: Tree :| f.fs == Graft(fs0, p, u);
    ProbeKeeps(f.l, fs0, dir, u);
    OneMore(f.l, log0, w, f.fs);
    if !ok { return; }
    ghost var fs1, log1 := f.fs, f.log;
    ok := f.Put(p, map[]);
    ghost var v: Tree :| f.fs == Graft(fs1, p, v);
    ProbeKeeps(f.l, fs1, dir, v);
    OneMore(f.l, log1, w, f.fs);
    if ok {
      ProbeKeeps(f.l, fs1, dir, map[]);
      GraftTwice(Sub(fs0, dir), [PROBE_FILE], u, map[]);
      EmptyDirHasNothing(PROBE_FILE);
      GraftNothing(EMPTY_DIR, [PROBE_FILE]);
    }
  }

  lemma ProbeKeeps(l: Layout, fs: Tree, dir: Path, u: Tree)
    requires WellFormed(l) && (dir == l.picoKubeVarDir || dir == l.kubernetesDir)
    ensures var fs' := Graft(fs, dir + [PROBE_FILE], u);
            && Sub(fs', dir) == Graft(Sub(fs, dir), [PROBE_FILE], u)
            && ([] in Sub(fs, l.picoKubeVarDir) ==> [] in Sub(fs', l.picoKubeVarDir))
            && (NoSuperAdmin(Sub(fs, l.kubernetesDir)) ==> NoSuperAdmin(Sub(fs', l.kubernetesDir)))
            && (forall p | Apart(dir, p) :: Sub(fs', p) == Sub(fs, p))
  {
    hide Sub, Graft, NoSuperAdmin;
    var fs' := Graft(fs, dir + [PROBE_FILE], u);
    SubGraftAbove(fs, dir, [PROBE_FILE], u);
    forall p | Apart(dir, p) ensures Sub(fs', p) == Sub(fs, p) {
      ApartSymmetric(dir, p);
      ApartBelow(p, dir, [PROBE_FILE]);
      ApartSymmetric(p, dir + [PROBE_FILE]);
      SubGraftApart(fs, dir + [PROBE_FILE], u, p);
    }
    RootPair(l);
    InGraft(Sub(fs, dir), [PROBE_FILE], u, []);
    assert |PROBE_FILE| == 12 && |SUPER_ADMIN| == 16;
    OtherEntry(Sub(fs, dir), PROBE_FILE, [], u, SUPER_ADMIN);
    assert [PROBE_FILE] + [] == [PROBE_FILE];
    SameSuper(Sub(fs, dir), Sub(fs', dir));
  }

  const SUPER_ADMIN: string := "super-admin.conf"

  lemma VarMade(l: Layout, fs: Tree)
    requires WellFormed(l) && !Exists(fs, l.picoKubeVarDir)
    ensures var fs' := Mkdir(fs, l.picoKubeVarDir);
            Sub(fs', l.picoKubeVarDir) == EMPTY_DIR && Sub(fs', l.kubernetesDir) == Sub(fs, l.kubernetesDir)
  {
    hide Sub, Graft;
    MkdirIsGraft(fs, l.picoKubeVarDir);
    SubGraftSame(fs, l.picoKubeVarDir, EMPTY_DIR);
    RootPair(l);
    SubGraftApart(fs, l.picoKubeVarDir, EMPTY_DIR, l.kubernetesDir);
  }

  lemma EmptyDirHasNothing(a: string)
    ensures Sub(EMPTY_DIR, [a]) == map[]
  {
    hide Sub;
    forall r ensures SameAt(Sub(EMPTY_DIR, [a]), map[], r) {
      InSub(EMPTY_DIR, [a], r);
      assert |[a] + r| > 0;
    }
    TreeExtensionality(Sub(EMPTY_DIR, [a]), map[]);
  }

  lemma KubeMade(l: Layout, fs: Tree)
    requires WellFormed(l)
    ensures var fs' := Mkdir(fs, l.kubernetesDir);
            && Sub(fs', l.kubernetesDir) == (if Sub(fs, l.kubernetesDir) == map[] then EMPTY_DIR else Sub(fs, l.kubernetesDir))
            && Sub(fs', l.picoKubeVarDir) == Sub(fs, l.picoKubeVarDir)
  {
    hide Sub, Graft;
    AbsentIs(fs, l.kubernetesDir);
    if !Exists(fs, l.kubernetesDir) {
      MkdirIsGraft(fs, l.kubernetesDir);
      SubGraftSame(fs, l.kubernetesDir, EMPTY_DIR);
      RootPair(l);
      SubGraftApart(fs, l.kubernetesDir, EMPTY_DIR, l.picoKubeVarDir);
    }
  }

  const CONFS: seq<string> := ["admin.conf", "controller-manager.conf", "scheduler.conf", "kubelet.conf"]

  /** A write below the kubernetes directory that leaves what is seeded. */
  method PutEntry(f: Files, a: string, x: Path, t: Tree, ghost names: set<string>, ghost base: Base) returns (ok: bool)
    requires f.Valid() && Seeded(f.l, f.fs, names, base) && a != PKI && a !in names
    modifies f
    ensures old(f.calls) <= f.calls && (!ok ==> Faulty(f.faults, old(f.calls), f.calls))
    ensures f.Valid() && f.log == old(f.log) + [f.fs] && Seeded(f.l, f.fs, names, base)
    ensures ok ==> Sub(Sub(f.fs, f.l.kubernetesDir), [a]) == Graft(old(Sub(Sub(f.fs, f.l.kubernetesDir), [a])), x, t)
    ensures forall b | b != a :: Sub(Sub(f.fs, f.l.kubernetesDir), [b]) == old(Sub(Sub(f.fs, f.l.kubernetesDir), [b]))
  {
    hide Sub, Graft, Seeded;
    ghost var fs0 := f.fs;
    var p := f.l.kubernetesDir + ([a] + x);
    ok := f.Put(p, t);
    ghost var u: Tree :| f.fs == Graft(fs0, p, u);
    SeededStays(f.l, fs0, a, x, u, names, base);
    KubeEntry(f.l, fs0, a, x, u);
    if ok {
      KubeEntry(f.l, fs0, a, x, t);
    }
  }

  lemma SeededIsMarked(l: Layout, fs: Tree, names: set<string>, base: Base)
    requires Seeded(l, fs, names, base)
    ensures [] in Sub(fs, l.picoKubeVarDir)
  {}

  /** CreatePKIAssets: what is in the PKI directory is used, the rest issued. */
  method SeedPki(f: Files, issue: Issuance, ghost k0: Tree) returns (ok: bool)
    requires f.Valid() && VarReady(Sub(f.fs, f.l.picoKubeVarDir)) && AsFound(Sub(f.fs, f.l.kubernetesDir), k0)
    modifies f
    ensures old(f.calls) <= f.calls
    ensures !ok ==> Faulty(f.faults, old(f.calls), f.calls) || Assets(PkiFound(k0), issue).Err?
    ensures f.Valid() && old(f.log) <= f.log
    ensures Throughout(f.l, f.log, Since(|old(f.log)|, NoSuperAdmin(k0), |old(f.log)|))
    ensures ok ==> Assets(PkiFound(k0), issue).Ok? && Seeded(f.l, f.fs, {}, BaseOf(k0, issue))
    ensures forall b | b != PKI && b != PROBE_FILE :: Sub(Sub(f.fs, f.l.kubernetesDir), [b]) == Sub(k0, [b])
  {
    hide Sub, Graft, Mkdir, VarReady, Assets, NoSuperAdmin;
    ghost var fs0, w := f.fs, Since(|f.log|, NoSuperAdmin(k0), |f.log|);
    var p := f.l.kubernetesDir + [PKI];
    VarIsMarked(f.l, f.fs);
    ProbeIsNoEntry();
    FromHere(f.l, f.log, w.quiet);
    ghost var log := f.log;
    ok := f.Make(p);
    PkiMade(f.l, fs0, k0);
    SameSuper(k0, Sub(fs0, f.l.kubernetesDir));
    SameSuper(k0, Sub(f.fs, f.l.kubernetesDir));
    OneMore(f.l, log, w, f.fs);
    if !ok { return; }
    ghost var fs1 := f.fs;
    log := f.log;
    var made := Assets(Sub(Sub(f.fs, f.l.kubernetesDir), [PKI]), issue);
    assert p == f.l.kubernetesDir + ([PKI] + []);
    if made.Err? {
      f.Fail(p);
      ok := false;
    } else {
      ok := f.Put(p, made.value);
    }
    ghost var u: Tree :| f.fs == Graft(fs1, p, u);
    KubeEntry(f.l, fs1, PKI, [], u);
    SameSuper(k0, Sub(f.fs, f.l.kubernetesDir));
    OneMore(f.l, log, w, f.fs);
    if ok {
      KubeEntry(f.l, fs1, PKI, [], made.value);
      GraftAll(Sub(Sub(fs1, f.l.kubernetesDir), [PKI]), made.value);
    }
  }

  lemma ProbeIsNoEntry()
    ensures PROBE_FILE != PKI && PROBE_FILE != SUPER_ADMIN && PROBE_FILE !in CONFS && PKI != SUPER_ADMIN && PKI !in CONFS
  {
    assert PROBE_FILE[0] == '.' && |PKI| == 3 && |SUPER_ADMIN| == 16;
    assert CONFS[0] == "admin.conf" && CONFS[1] == "controller-manager.conf" && CONFS[2] == "scheduler.conf" && CONFS[3] == "kubelet.conf";
    assert |CONFS[0]| == 10 && |CONFS[1]| == 23 && |CONFS[2]| == 14 && |CONFS[3]| == 12;
  }

  lemma VarIsMarked(l: Layout, fs: Tree)
    ensures VarReady(Sub(fs, l.picoKubeVarDir)) ==> [] in Sub(fs, l.picoKubeVarDir)
  {}

  lemma PkiMade(l: Layout, fs: Tree, k0: Tree)
    requires WellFormed(l) && AsFound(Sub(fs, l.kubernetesDir), k0)
    ensures var fs' := Mkdir(fs, l.kubernetesDir + [PKI]);
            && Sub(fs', l.picoKubeVarDir) == Sub(fs, l.picoKubeVarDir)
            && Sub(Sub(fs', l.kubernetesDir), [PKI]) == PkiFound(k0)
            && forall b | b != PKI && b != PROBE_FILE :: Sub(Sub(fs', l.kubernetesDir), [b]) == Sub(k0, [b])
  {
    hide Sub, Graft;
    var p := l.kubernetesDir + [PKI];
    ProbeIsNoEntry();
    SubOfSub(fs, l.kubernetesDir, [PKI]);
    AbsentIs(fs, p);
    if !Exists(fs, p) {
      MkdirIsGraft(fs, p);
      assert p == l.kubernetesDir + ([PKI] + []);
      KubeEntry(l, fs, PKI, [], EMPTY_DIR);
      GraftAll(Sub(Sub(fs, l.kubernetesDir), [PKI]), EMPTY_DIR);
    }
  }

  lemma AbsentIs(t: Tree, p: Path)
    ensures Exists(t, p) <==> Sub(t, p) != map[]
  {}

  lemma EmptyIsIssuable(issue: Issuance)
    ensures Assets(EMPTY_DIR, issue).Ok?
  {
    hide Assets, IsPki, Signer;
    AssetsSucceed(EMPTY_DIR, issue);
  }

  /** In what kubeadm makes from nothing the cluster CA can sign. */
  lemma SeededPki(issue: Issuance)
    requires Assets(EMPTY_DIR, issue).Ok?
    ensures Owned(Assets(EMPTY_DIR, issue).value, ClusterCA)
  {
    hide IssueCAs, IssueLeaves;
    var item := Authority(ClusterCA);
    assert Missing(EMPTY_DIR, item);
    EveryCA(ClusterCA);
    CAsIssued(EMPTY_DIR, ALL_CAS, issue, item);
    PkiLeavesArePki();
    var cas := IssueCAs(EMPTY_DIR, ALL_CAS, issue).value;
    PresentStays(cas, Assets(EMPTY_DIR, issue).value, item);
  }

  // ---- super-admin.conf ----

  lemma SuperAdminApart()
    ensures SUPER_ADMIN != PKI && SUPER_ADMIN !in CONFS && MANIFESTS != PKI && MANIFESTS !in CONFS && MANIFESTS != SUPER_ADMIN
  {
    assert |SUPER_ADMIN| == 16 && |PKI| == 3 && |MANIFESTS| == 9;
    assert |CONFS[0]| == 10 && |CONFS[1]| == 23 && |CONFS[2]| == 14 && |CONFS[3]| == 12;
  }

  /** The kubeconfigs: what is there and fits is kept, the rest signed by the CA. */
  method SeedKubeconfigs(f: Files, issue: Issuance, ghost base: Base) returns (ok: bool)
    requires f.Valid() && Seeded(f.l, f.fs, {}, base)
    requires forall name | name in CONFS || name == SUPER_ADMIN :: Sub(Sub(f.fs, f.l.kubernetesDir), [name]) == Sub(base.was, [name])
    modifies f
    ensures old(f.calls) <= f.calls
    ensures !ok ==> Faulty(f.faults, old(f.calls), f.calls)
                    || exists name | name in CONFS :: !ConfFits(base.was, name, issue([name]).cluster, base.pki)
    ensures ok ==> forall name | name in CONFS :: ConfFits(base.was, name, issue([name]).cluster, base.pki)
    ensures Sub(Sub(f.fs, f.l.kubernetesDir), [SUPER_ADMIN]) == Sub(base.was, [SUPER_ADMIN])
    ensures ok ==> Seeded(f.l, f.fs, SetOf(CONFS), base)
    ensures f.Valid() && old(f.log) <= f.log
    ensures Throughout(f.l, f.log, Since(|old(f.log)|, NoSuperAdmin(base.was), |old(f.log)|))
  {
    hide Sub, Graft, Seeded, Throughout, NoSuperAdmin, ConfFits;
    ghost var w := Since(|f.log|, NoSuperAdmin(base.was), |f.log|);
    ok := true;
    var i := 0;
    assert SetOf(CONFS[..0]) == {};
    FromHere(f.l, f.log, w.quiet);
    SuperAdminApart();
    while ok && i < |CONFS|
      invariant 0 <= i <= |CONFS| && f.Valid() && old(f.log) <= f.log && Throughout(f.l, f.log, w)
      invariant ok ==> Seeded(f.l, f.fs, SetOf(CONFS[..i]), base)
      invariant ok ==> forall j | 0 <= j < i :: ConfFits(base.was, CONFS[j], issue([CONFS[j]]).cluster, base.pki)
      invariant ok ==> forall j | i <= j < |CONFS| :: Sub(Sub(f.fs, f.l.kubernetesDir), [CONFS[j]]) == Sub(base.was, [CONFS[j]])
      invariant Sub(Sub(f.fs, f.l.kubernetesDir), [SUPER_ADMIN]) == Sub(base.was, [SUPER_ADMIN])
      invariant old(f.calls) <= f.calls
      invariant !ok ==> Faulty(f.faults, old(f.calls), f.calls)
                        || exists name | name in CONFS :: !ConfFits(base.was, name, issue([name]).cluster, base.pki)
      decreases |CONFS| - i, ok
    {
      ConfsDistinct(i);
      ghost var log := f.log;
      ghost var names := SetOf(CONFS[..i]);
      ok := SeedKubeconfig(f, CONFS[i], issue, names, base);
      SameSuper(base.was, Sub(f.fs, f.l.kubernetesDir));
      assert CONFS[..i + 1] == CONFS[..i] + [CONFS[i]];
      assert SetOf(CONFS[..i + 1]) == names + {CONFS[i]};
      SeededIsMarked(f.l, f.fs, if ok then names + {CONFS[i]} else names, base);
      OneMore(f.l, log, w, f.fs);
      i := i + 1;
    }
    assert CONFS[..|CONFS|] == CONFS;
  }

  lemma ConfsDistinct(i: nat)
    requires i < |CONFS|
    ensures CONFS[i] !in SetOf(CONFS[..i]) && CONFS[i] != PKI && CONFS[i] in CONFS
    ensures forall j | i < j < |CONFS| :: CONFS[j] != CONFS[i]
  {
    assert |CONFS[0]| == 10 && |CONFS[1]| == 23 && |CONFS[2]| == 14 && |CONFS[3]| == 12 && |PKI| == 3;
  }

  /** `CreateKubeConfigFile`. */
  method SeedKubeconfig(f: Files, name: string, issue: Issuance, ghost names: set<string>, ghost base: Base) returns (ok: bool)
    requires f.Valid() && Seeded(f.l, f.fs, names, base) && name != PKI && name !in names
    requires Sub(Sub(f.fs, f.l.kubernetesDir), [name]) == Sub(base.was, [name])
    modifies f
    ensures old(f.calls) <= f.calls
    ensures ok ==> ConfFits(base.was, name, issue([name]).cluster, base.pki)
    ensures !ok ==> Faulty(f.faults, old(f.calls), f.calls) || !ConfFits(base.was, name, issue([name]).cluster, base.pki)
    ensures f.Valid() && f.log == old(f.log) + [f.fs] && Seeded(f.l, f.fs, if ok then names + {name} else names, base)
    ensures forall b | b != name :: Sub(Sub(f.fs, f.l.kubernetesDir), [b]) == old(Sub(Sub(f.fs, f.l.kubernetesDir), [b]))
  {
    hide Sub, Graft, PkiReady, VarReady, Owned;
    var pki, file := Sub(Sub(f.fs, f.l.kubernetesDir), [PKI]), Sub(Sub(f.fs, f.l.kubernetesDir), [name]);
    if file != map[] {
      ok := f.Ask();
      ok := ok && IsKubeconfig(file) && file[[]].data.cluster == issue([name]).cluster;
    } else if !Owned(pki, ClusterCA) {
      ok := f.Ask();
      ok := false;
    } else {
      HasCA(pki);
      var t := Trees.Leaf(NewConf(issue([name]), CertAt(pki, Crt(Authority(ClusterCA))).value.key));
      ok := PutEntry(f, name, [], t, names, base);
      GraftAll(file, t);
    }
  }

  lemma HasCA(pki: Tree)
    requires PkiReady(pki)
    ensures CertAt(pki, Crt(Authority(ClusterCA))).Some?
  {}

  // ---- the rest of Run ----

  /** The kubeconfigs the renewal manager knows; kubelet.conf is rewritten later. */
  const LEAF_CONFS: set<string> := {"admin.conf", "controller-manager.conf", "scheduler.conf"}

  lemma SeededFewer(l: Layout, fs: Tree, base: Base)
    requires Seeded(l, fs, SetOf(CONFS), base)
    ensures Seeded(l, fs, LEAF_CONFS, base) && IsKubeconfig(Sub(Sub(fs, l.kubernetesDir), [KUBELET_CONF]))
  {
    hide Sub, PkiReady, VarReady, Crt;
    assert CONFS[3] == KUBELET_CONF && ConfDone(Sub(fs, l.kubernetesDir), CONFS[3], base);
    assert CONFS[0] == "admin.conf" && CONFS[1] == "controller-manager.conf" && CONFS[2] == "scheduler.conf";
  }

  lemma LeafConfNames()
    ensures PKI !in LEAF_CONFS && SUPER_ADMIN !in LEAF_CONFS && MANIFESTS !in LEAF_CONFS && KUBELET_CONF !in LEAF_CONFS
    ensures KUBELET_CONF != PKI && KUBELET_CONF != SUPER_ADMIN && KUBELET_CONF != MANIFESTS
    ensures MANIFESTS != PKI && MANIFESTS != SUPER_ADMIN && PKI != SUPER_ADMIN
  {
    assert |"admin.conf"| == 10 && |"controller-manager.conf"| == 23 && |"scheduler.conf"| == 14;
    assert |PKI| == 3 && |SUPER_ADMIN| == 16 && |MANIFESTS| == 9 && |KUBELET_CONF| == 12;
  }

  /** The seeds are in place, and what `w` says has been so. */
  ghost predicate Held(f: Files, w: Watch)
    reads f
  {
    && f.Valid() && Seeded(f.l, f.fs, LEAF_CONFS, w.base)
    && w.span.marked <= |f.log| && w.span.clear <= |f.log| && Throughout(f.l, f.log, w.span)
    && (w.span.quiet ==> NoSuperAdmin(Sub(f.fs, f.l.kubernetesDir)))
    && (w.found ==> Sub(Sub(f.fs, f.l.kubernetesDir), [SUPER_ADMIN]) == Sub(w.base.was, [SUPER_ADMIN]))
  }

  /** A write to an entry that holds no seed. */
  method Enter(f: Files, a: string, x: Path, t: Tree, ghost w: Watch) returns (ok: bool)
    requires Held(f, w) && a != PKI && a !in LEAF_CONFS && (w.span.quiet || w.found ==> a != SUPER_ADMIN)
    modifies f
    ensures a != KUBELET_CONF ==> Sub(Sub(f.fs, f.l.kubernetesDir), [KUBELET_CONF]) == old(Sub(Sub(f.fs, f.l.kubernetesDir), [KUBELET_CONF]))
    ensures old(f.calls) <= f.calls && (!ok ==> Faulty(f.faults, old(f.calls), f.calls))
    ensures ok ==> Sub(Sub(f.fs, f.l.kubernetesDir), [a]) == Graft(old(Sub(Sub(f.fs, f.l.kubernetesDir), [a])), x, t)
    ensures a != SUPER_ADMIN ==> NoSuperAdmin(Sub(f.fs, f.l.kubernetesDir)) == old(NoSuperAdmin(Sub(f.fs, f.l.kubernetesDir)))
    ensures Held(f, w) && old(f.log) < f.log
  {
    hide Sub, Graft, Seeded, Throughout, NoSuperAdmin;
    ghost var log, k := f.log, Sub(f.fs, f.l.kubernetesDir);
    ok := PutEntry(f, a, x, t, LEAF_CONFS, w.base);
    if a != SUPER_ADMIN {
      SameSuper(k, Sub(f.fs, f.l.kubernetesDir));
    }
    SeededIsMarked(f.l, f.fs, LEAF_CONFS, w.base);
    OneMore(f.l, log, w.span, f.fs);
  }

  /** A call that only succeeds or fails, several times over. */
  method Calls(f: Files, count: nat, ghost w: Watch) returns (ok: bool)
    requires Held(f, w)
    modifies f
    ensures old(f.calls) <= f.calls && (!ok ==> Faulty(f.faults, old(f.calls), f.calls))
    ensures count > 0 ==> old(f.log) < f.log
    ensures f.fs == old(f.fs)
    ensures Held(f, w) && old(f.log) <= f.log
  {
    hide Sub, Seeded, Throughout, NoSuperAdmin;
    ok := true;
    var i := 0;
    while ok && i < count
      invariant 0 <= i <= count && Held(f, w) && old(f.log) <= f.log && f.fs == old(f.fs)
      invariant (i > 0 ==> old(f.log) < f.log) && (!ok ==> i > 0)
      invariant old(f.calls) <= f.calls && (!ok ==> Faulty(f.faults, old(f.calls), f.calls))
      decreases count - i, ok
    {
      ghost var log := f.log;
      ok := f.Ask();
      SeededIsMarked(f.l, f.fs, LEAF_CONFS, w.base);
      OneMore(f.l, log, w.span, f.fs);
      i := i + 1;
    }
  }

  /** A write outside the kubernetes and picokube directories: kubelet's files. */
  method PutKubelet(f: Files, name: string, t: Tree, ghost w: Watch) returns (ok: bool)
    requires Held(f, w)
    modifies f
    ensures Sub(Sub(f.fs, f.l.kubernetesDir), [KUBELET_CONF]) == old(Sub(Sub(f.fs, f.l.kubernetesDir), [KUBELET_CONF]))
    ensures old(f.calls) <= f.calls && (!ok ==> Faulty(f.faults, old(f.calls), f.calls))
    ensures NoSuperAdmin(Sub(f.fs, f.l.kubernetesDir)) == old(NoSuperAdmin(Sub(f.fs, f.l.kubernetesDir)))
    ensures Held(f, w) && old(f.log) <= f.log
  {
    hide Sub, Graft, PkiReady, VarReady, ConfReady, Throughout, NoSuperAdmin;
    ghost var fs0, log := f.fs, f.log;
    ok := f.Put(f.l.kubeletDir + [name], t);
    ghost var u: Tree :| f.fs == Graft(fs0, f.l.kubeletDir + [name], u);
    KubeletEntry(f.l, fs0, [name], u);
    SeededIsMarked(f.l, f.fs, LEAF_CONFS, w.base);
    OneMore(f.l, log, w.span, f.fs);
  }

  /** kubeadm.Ensure: manifests, then the kubelet files. */
  method Render(f: Files, rendered: Rendered, ghost w: Watch) returns (ok: bool)
    requires Held(f, w)
    modifies f
    ensures Sub(Sub(f.fs, f.l.kubernetesDir), [KUBELET_CONF]) == old(Sub(Sub(f.fs, f.l.kubernetesDir), [KUBELET_CONF]))
    ensures old(f.calls) <= f.calls && (!ok ==> Faulty(f.faults, old(f.calls), f.calls))
    ensures NoSuperAdmin(Sub(f.fs, f.l.kubernetesDir)) == old(NoSuperAdmin(Sub(f.fs, f.l.kubernetesDir)))
    ensures Held(f, w) && old(f.log) <= f.log
  {
    hide Sub, Graft, Held, NoSuperAdmin;
    LeafConfNames();
    ok := true;
    var i := 0;
    while ok && i < |rendered.manifests|
      invariant 0 <= i <= |rendered.manifests| && Held(f, w) && old(f.log) <= f.log
      invariant NoSuperAdmin(Sub(f.fs, f.l.kubernetesDir)) == old(NoSuperAdmin(Sub(f.fs, f.l.kubernetesDir)))
      invariant old(f.calls) <= f.calls && (!ok ==> Faulty(f.faults, old(f.calls), f.calls))
      invariant Sub(Sub(f.fs, f.l.kubernetesDir), [KUBELET_CONF]) == old(Sub(Sub(f.fs, f.l.kubernetesDir), [KUBELET_CONF]))
      decreases |rendered.manifests| - i, ok
    {
      ok := Enter(f, MANIFESTS, [rendered.manifests[i].0], rendered.manifests[i].1, w);
      i := i + 1;
    }
    if ok { ok := PutKubelet(f, KUBELET_FILES[2], rendered.flags, w); }
    if ok { ok := PutKubelet(f, KUBELET_FILES[1], rendered.instance, w); }
    if ok { ok := PutKubelet(f, KUBELET_FILES[0], rendered.config, w); }
  }

  const PEM: Path := ["kubelet-client-current.pem"]

  /** finalizeKubeletKubeconfig. `kubelet(i)` is what kubelet's PKI directory holds at
      poll `i`. When its certificate shows in time kubelet.conf points at it; running
      out of time is no error. */
  method Finalize(f: Files, kubelet: nat -> Tree, polls: nat, ghost w: Watch) returns (ok: bool)
    requires Held(f, w) && IsKubeconfig(Sub(Sub(f.fs, f.l.kubernetesDir), [KUBELET_CONF]))
    modifies f
    ensures old(f.calls) <= f.calls && (!ok ==> Faulty(f.faults, old(f.calls), f.calls))
    ensures ok && (exists i: nat | i < polls :: Exists(kubelet(i), PEM)) ==>
              PointsAt(old(Sub(Sub(f.fs, f.l.kubernetesDir), [KUBELET_CONF])), Sub(Sub(f.fs, f.l.kubernetesDir), [KUBELET_CONF]),
                       KubeletPem(f.l))
    ensures NoSuperAdmin(Sub(f.fs, f.l.kubernetesDir)) == old(NoSuperAdmin(Sub(f.fs, f.l.kubernetesDir)))
    ensures Held(f, w) && old(f.log) <= f.log
  {
    hide Sub, Graft, Held, NoSuperAdmin, Exists;
    LeafConfNames();
    ghost var was := Sub(Sub(f.fs, f.l.kubernetesDir), [KUBELET_CONF]);
    ok := true;
    for i := 0 to polls
      invariant ok && Held(f, w) && old(f.log) <= f.log && old(f.calls) <= f.calls
      invariant NoSuperAdmin(Sub(f.fs, f.l.kubernetesDir)) == old(NoSuperAdmin(Sub(f.fs, f.l.kubernetesDir)))
      invariant Sub(Sub(f.fs, f.l.kubernetesDir), [KUBELET_CONF]) == was
      invariant (exists j: nat | j < i :: Exists(kubelet(j), PEM)) ==> PointsAt(was, was, KubeletPem(f.l))
    {
      WaitForPem(f, kubelet(i), w);
      var changed;
      ok, changed := FinalizeOnce(f, w);
      if !ok { return; }
      if changed {
        ok := Calls(f, 1, w);
        return;
      }
    }
  }

  /** Two seconds of kubelet. */
  method WaitForPem(f: Files, t: Tree, ghost w: Watch)
    requires Held(f, w)
    modifies f
    ensures f.calls == old(f.calls) && Sub(f.fs, f.l.kubernetesDir) == old(Sub(f.fs, f.l.kubernetesDir))
    ensures Exists(f.fs, KubeletPem(f.l)) == Exists(t, PEM)
    ensures Held(f, w) && old(f.log) <= f.log
  {
    hide Sub, Graft, PkiReady, VarReady, ConfReady, Throughout, NoSuperAdmin;
    ghost var fs0, log := f.fs, f.log;
    f.KubeletSaves(t);
    KubeletEntry(f.l, fs0, ["pki"], t);
    SeededIsMarked(f.l, f.fs, LEAF_CONFS, w.base);
    OneMore(f.l, log, w.span, f.fs);
    SubGraftBelow(fs0, f.l.kubeletDir + ["pki"], t, PEM);
    assert f.l.kubeletDir + ["pki"] + PEM == KubeletPem(f.l);
    AbsentIs(f.fs, KubeletPem(f.l));
    AbsentIs(t, PEM);
  }

  /** One FinalizeKubeletKubeconfig. */
  method FinalizeOnce(f: Files, ghost w: Watch) returns (ok: bool, changed: bool)
    requires Held(f, w) && IsKubeconfig(Sub(Sub(f.fs, f.l.kubernetesDir), [KUBELET_CONF]))
    modifies f
    ensures old(f.calls) <= f.calls && (!ok ==> Faulty(f.faults, old(f.calls), f.calls))
    ensures ok && old(Exists(f.fs, KubeletPem(f.l))) ==>
              PointsAt(old(Sub(Sub(f.fs, f.l.kubernetesDir), [KUBELET_CONF])), Sub(Sub(f.fs, f.l.kubernetesDir), [KUBELET_CONF]),
                       KubeletPem(f.l))
    ensures ok && !changed ==> f.fs == old(f.fs)
    ensures ok && changed ==>
              PointsAt(old(Sub(Sub(f.fs, f.l.kubernetesDir), [KUBELET_CONF])), Sub(Sub(f.fs, f.l.kubernetesDir), [KUBELET_CONF]),
                       KubeletPem(f.l))
    ensures NoSuperAdmin(Sub(f.fs, f.l.kubernetesDir)) == old(NoSuperAdmin(Sub(f.fs, f.l.kubernetesDir)))
    ensures Held(f, w) && old(f.log) <= f.log
  {
    hide Sub, Graft, Held, NoSuperAdmin, Exists;
    LeafConfNames();
    changed := false;
    ok := Calls(f, 1, w);
    if !ok || !Exists(f.fs, KubeletPem(f.l)) { return; }
    ok := Calls(f, 1, w);
    if !ok { return; }
    SubOfSub(f.fs, f.l.kubernetesDir, [KUBELET_CONF]);
    var file := Sub(f.fs, f.l.kubernetesDir + [KUBELET_CONF]);
    if file[[]].data.user == Referenced(KubeletPem(f.l)) { return; }
    var edited := Trees.Leaf(file[[]].data.(user := Referenced(KubeletPem(f.l))));
    ok := Enter(f, KUBELET_CONF, [], edited, w);
    GraftAll(file, edited);
    changed := true;
  }

  // ---- the first last-boot record ----

  lemma HeldAfterState(l: Layout, fs: Tree, x: Path, t: Tree, base: Base)
    requires WellFormed(l) && Seeded(l, fs, LEAF_CONFS, base)
    ensures var fs' := Graft(fs, l.StateDir() + x, t);
            Seeded(l, fs', LEAF_CONFS, base) && Sub(fs', l.kubernetesDir) == Sub(fs, l.kubernetesDir)
  {
    hide Sub, Graft, PkiReady, VarReady, ConfReady;
    StateEntry(l, fs, x, t);
  }

  /** One call below the state directory, or none when it fails. */
  lemma StateStep(l: Layout, log: seq<Tree>, w: Watch, fs: Tree)
    requires Throughout(l, log, w.span) && Seeded(l, fs, LEAF_CONFS, w.base) && (w.span.quiet ==> NoSuperAdmin(Sub(fs, l.kubernetesDir)))
    ensures Throughout(l, log + [fs], w.span)
  {
    hide Sub, PkiReady, ConfReady, NoSuperAdmin;
    OneMore(l, log, w.span, fs);
  }

  method MakeStateDir(f: Files, ghost w: Watch) returns (ok: bool)
    requires Held(f, w)
    modifies f
    ensures old(f.calls) <= f.calls && (!ok ==> Faulty(f.faults, old(f.calls), f.calls))
    ensures NoSuperAdmin(Sub(f.fs, f.l.kubernetesDir)) == old(NoSuperAdmin(Sub(f.fs, f.l.kubernetesDir)))
    ensures Held(f, w) && old(f.log) <= f.log
  {
    hide Sub, Graft, Seeded, Throughout, NoSuperAdmin, Mkdir;
    ghost var fs0, log := f.fs, f.log;
    ok := f.Make(f.l.StateDir());
    if !Exists(fs0, f.l.StateDir()) {
      MkdirIsGraft(fs0, f.l.StateDir());
      assert f.l.StateDir() + [] == f.l.StateDir();
      HeldAfterState(f.l, fs0, [], EMPTY_DIR, w.base);
    } else {
      MkdirNothing(fs0, f.l.StateDir());
    }
    StateStep(f.l, log, w, f.fs);
  }

  lemma MkdirNothing(t: Tree, p: Path)
    requires Exists(t, p)
    ensures Mkdir(t, p) == t
  {}

  /** state.WriteLastBoot: a temporary file renamed over the record. */
  method WriteLastBoot(f: Files, lb: LastBoot, ghost w: Watch) returns (ok: bool)
    requires Held(f, w)
    modifies f
    ensures old(f.calls) <= f.calls && (!ok ==> Faulty(f.faults, old(f.calls), f.calls))
    ensures ok ==> RecordIn(Sub(f.fs, f.l.LastBootFile())) == Some(lb)
    ensures NoSuperAdmin(Sub(f.fs, f.l.kubernetesDir)) == old(NoSuperAdmin(Sub(f.fs, f.l.kubernetesDir)))
    ensures Held(f, w) && old(f.log) <= f.log
  {
    hide Sub, Graft, Seeded, Throughout, NoSuperAdmin, RecordIn;
    ok := MakeStateDir(f, w);
    if !ok { return; }
    var tmp := f.l.StateDir() + [".tmp-record"];
    ghost var fs0, log := f.fs, f.log;
    ok := f.Put(tmp, Trees.Leaf(BootRecord(lb)));
    ghost var u: Tree :| f.fs == Graft(fs0, tmp, u);
    HeldAfterState(f.l, fs0, [".tmp-record"], u, w.base);
    StateStep(f.l, log, w, f.fs);
    SubGraftSame(fs0, tmp, Trees.Leaf(BootRecord(lb)));
    ghost var fs1, log1 := f.fs, f.log;
    if ok {
      ok := f.Move(tmp, f.l.LastBootFile());
      HeldAfterState(f.l, fs1, [".tmp-record"], map[], w.base);
      HeldAfterState(f.l, Graft(fs1, tmp, map[]), ["last-boot.json"], Sub(fs1, tmp), w.base);
      StateStep(f.l, log1, w, f.fs);
      SubGraftSame(Graft(fs1, tmp, map[]), f.l.LastBootFile(), Sub(fs1, tmp));
      IsRecord(lb);
    }
    DropTemp(f, w);
  }

  lemma IsRecord(lb: LastBoot)
    ensures RecordIn(Trees.Leaf(BootRecord(lb))) == Some(lb)
  {}

  /** The deferred removal of the temporary file. */
  method DropTemp(f: Files, ghost w: Watch)
    requires Held(f, w)
    modifies f
    ensures old(f.calls) <= f.calls
    ensures Sub(f.fs, f.l.LastBootFile()) == old(Sub(f.fs, f.l.LastBootFile()))
    ensures NoSuperAdmin(Sub(f.fs, f.l.kubernetesDir)) == old(NoSuperAdmin(Sub(f.fs, f.l.kubernetesDir)))
    ensures Held(f, w) && old(f.log) <= f.log
  {
    hide Sub, Graft, Seeded, Throughout, NoSuperAdmin;
    ghost var fs0, log := f.fs, f.log;
    var tmp := f.l.StateDir() + [".tmp-record"];
    var _ := f.Put(tmp, map[]);
    ghost var u: Tree :| f.fs == Graft(fs0, tmp, u);
    HeldAfterState(f.l, fs0, [".tmp-record"], u, w.base);
    StateStep(f.l, log, w, f.fs);
    assert ".tmp-record"[0] != "last-boot.json"[0];
    ApartSiblings(f.l.StateDir(), ".tmp-record", [], "last-boot.json", []);
    assert tmp + [] == tmp && f.l.StateDir() + ["last-boot.json"] + [] == f.l.LastBootFile();
    SubGraftApart(fs0, tmp, u, f.l.LastBootFile());
  }

  // ---- Run ----

  /** A node as a successful init leaves it. */
  ghost predicate Initialised(l: Layout, fs: Tree, lb: LastBoot, base: Base) {
    Seeded(l, fs, LEAF_CONFS, base) && NoSuperAdmin(Sub(fs, l.kubernetesDir)) && RecordIn(Sub(fs, l.LastBootFile())) == Some(lb)
  }

  /** Outside the moments `first` to `past` there has been no super-admin.conf. */
  ghost predicate OnlyInWindow(l: Layout, log: seq<Tree>, n: nat, first: nat, past: nat) {
    forall i | n <= i < |log| && !(first <= i < past) :: NoSuperAdmin(Sub(log[i], l.kubernetesDir))
  }

  /** The rest of a run once super-admin.conf is gone. */
  method Complete(f: Files, lb: LastBoot, kubelet: nat -> Tree, polls: nat, ghost w: Watch) returns (ok: bool)
    requires Held(f, w) && w.span.quiet && IsKubeconfig(Sub(Sub(f.fs, f.l.kubernetesDir), [KUBELET_CONF]))
    modifies f
    ensures old(f.calls) <= f.calls && (!ok ==> Faulty(f.faults, old(f.calls), f.calls))
    ensures ok ==> Initialised(f.l, f.fs, lb, w.base)
    ensures Held(f, w) && old(f.log) <= f.log
  {
    hide Sub, Graft, Held, Initialised, NoSuperAdmin;
    ok := Calls(f, 5, w);
    if !ok { return; }
    ok := Finalize(f, kubelet, polls, w);
    if !ok { return; }
    ok := Calls(f, 2, w);
    if !ok { return; }
    ok := WriteLastBoot(f, lb, w);
    if ok {
      HeldIsInitialised(f, lb, w);
    }
  }

  /** WriteSuperAdminKubeconfig: `CreateKubeConfigFile` once more. */
  method WriteSuperAdmin(f: Files, issue: Issuance, ghost w: Watch) returns (ok: bool)
    requires Held(f, w) && !w.span.quiet && w.found
    modifies f
    ensures old(f.calls) <= f.calls
    ensures ok ==> ConfFits(w.base.was, SUPER_ADMIN, issue([SUPER_ADMIN]).cluster, w.base.pki)
    ensures !ok ==> Faulty(f.faults, old(f.calls), f.calls)
                    || !ConfFits(w.base.was, SUPER_ADMIN, issue([SUPER_ADMIN]).cluster, w.base.pki)
    ensures Sub(Sub(f.fs, f.l.kubernetesDir), [KUBELET_CONF]) == old(Sub(Sub(f.fs, f.l.kubernetesDir), [KUBELET_CONF]))
    ensures Held(f, w.(found := false)) && old(f.log) < f.log
  {
    hide Sub, Graft, Owned, Held, NoSuperAdmin, PkiReady;
    LeafConfNames();
    HeldNow(f, w);
    var pki, file := Sub(Sub(f.fs, f.l.kubernetesDir), [PKI]), Sub(Sub(f.fs, f.l.kubernetesDir), [SUPER_ADMIN]);
    if file != map[] {
      ok := Calls(f, 1, w.(found := false));
      ok := ok && IsKubeconfig(file) && file[[]].data.cluster == issue([SUPER_ADMIN]).cluster;
    } else if !Owned(pki, ClusterCA) {
      ok := Calls(f, 1, w.(found := false));
      ok := false;
    } else {
      HasCA(pki);
      var t := Trees.Leaf(NewConf(issue([SUPER_ADMIN]), CertAt(pki, Crt(Authority(ClusterCA))).value.key));
      ok := Enter(f, SUPER_ADMIN, [], t, w.(found := false));
    }
  }

  lemma HeldNow(f: Files, w: Watch)
    requires Held(f, w) && w.found
    ensures f.Valid() && Held(f, w.(found := false)) && PkiReady(w.base.pki)
    ensures Sub(Sub(f.fs, f.l.kubernetesDir), [PKI]) == w.base.pki
    ensures Sub(Sub(f.fs, f.l.kubernetesDir), [SUPER_ADMIN]) == Sub(w.base.was, [SUPER_ADMIN])
  {
    hide Sub, PkiReady, VarReady, NoSuperAdmin;
  }

  /** The super-admin window: the file is written, three calls use it, it is removed. */
  method Window(f: Files, issue: Issuance, ghost w: Watch) returns (ok: bool)
    requires Held(f, w) && !w.span.quiet && w.found
    modifies f
    ensures old(f.calls) <= f.calls
    ensures ok ==> ConfFits(w.base.was, SUPER_ADMIN, issue([SUPER_ADMIN]).cluster, w.base.pki)
    ensures !ok ==> Faulty(f.faults, old(f.calls), f.calls)
                    || !ConfFits(w.base.was, SUPER_ADMIN, issue([SUPER_ADMIN]).cluster, w.base.pki)
    ensures ok ==> NoSuperAdmin(Sub(f.fs, f.l.kubernetesDir))
    ensures Sub(Sub(f.fs, f.l.kubernetesDir), [KUBELET_CONF]) == old(Sub(Sub(f.fs, f.l.kubernetesDir), [KUBELET_CONF]))
    ensures Held(f, w.(found := false)) && old(f.log) < f.log
  {
    hide Sub, Graft, Held, NoSuperAdmin, ConfFits;
    LeafConfNames();
    ghost var v := w.(found := false);
    ok := WriteSuperAdmin(f, issue, w);
    if !ok { return; }
    ok := Calls(f, 3, v);
    if !ok { return; }
    ghost var was := Sub(Sub(f.fs, f.l.kubernetesDir), [SUPER_ADMIN]);
    ok := Enter(f, SUPER_ADMIN, [], map[], v);
    GraftAll(was, map[]);
    Removed(f.l, f.fs);
  }

  /** From the rendered manifests to the record; `first` and `past` as for `Run`. */
  method Bring(f: Files, lb: LastBoot, rendered: Rendered, issue: Issuance, kubelet: nat -> Tree, polls: nat, ghost n: nat, ghost base: Base)
    returns (ok: bool, ghost first: nat, ghost past: nat)
    requires Held(f, Watch(Since(n, NoSuperAdmin(base.was), n), true, base)) && n == |f.log|
    requires IsKubeconfig(Sub(Sub(f.fs, f.l.kubernetesDir), [KUBELET_CONF]))
    modifies f
    ensures old(f.calls) <= f.calls
    ensures !ok ==> Faulty(f.faults, old(f.calls), f.calls)
                    || !ConfFits(base.was, SUPER_ADMIN, issue([SUPER_ADMIN]).cluster, base.pki)
    ensures ok ==> ConfFits(base.was, SUPER_ADMIN, issue([SUPER_ADMIN]).cluster, base.pki)
    ensures ok ==> Initialised(f.l, f.fs, lb, base) && past < |f.log|
    ensures first <= past <= |f.log| && (if NoSuperAdmin(base.was) then OnlyInWindow(f.l, f.log, n, first, past)
                                         else OnlyInWindow(f.l, f.log, past, 0, 0))
    ensures NoSuperAdmin(base.was) && first < past ==> n <= first && Seeded(f.l, f.log[first - 1], LEAF_CONFS, base)
    ensures !NoSuperAdmin(base.was) ==> n <= past
    ensures f.Valid() && old(f.log) <= f.log && Throughout(f.l, f.log, Since(n, false, 0))
  {
    hide Sub, Graft, Held, Initialised, NoSuperAdmin, Throughout, OnlyInWindow, ConfFits, Seeded;
    ghost var calm := NoSuperAdmin(base.was);
    ghost var w := Watch(Since(n, calm, n), true, base);
    first, past := 0, if calm then 0 else |f.log|;
    ok := Render(f, rendered, w);
    if calm { Phases(f, n, w); } else { past := |f.log|; NothingYet(f, w); }
    if !ok { return; }
    ghost var before := f.log;
    first := |f.log|;
    Unquiet(f, w);
    ok := Window(f, issue, Watch(Since(n, false, 0), true, base));
    past := |f.log|;
    InWindow(f, n, before, base, calm);
    if !ok { return; }
    past := |f.log| - 1;
    Requiet(f, n, base);
    ok := Complete(f, lb, kubelet, polls, Watch(Since(n, true, past), false, base));
    AfterWindow(f, n, before, first, past, base, calm);
  }

  lemma Removed(l: Layout, fs: Tree)
    ensures Sub(Sub(fs, l.kubernetesDir), [SUPER_ADMIN]) == map[] ==> NoSuperAdmin(Sub(fs, l.kubernetesDir))
  {}

  /** A run that has not come to the window yet. */
  lemma Phases(f: Files, n: nat, w: Watch)
    requires Held(f, w) && w.span == Since(n, true, n)
    ensures f.Valid() && OnlyInWindow(f.l, f.log, n, 0, 0) && Throughout(f.l, f.log, Since(n, false, 0))
    ensures |f.log| > 0 && Seeded(f.l, f.log[|f.log| - 1], LEAF_CONFS, w.base)
  {
    hide Sub, NoSuperAdmin, Seeded;
  }

  lemma NothingYet(f: Files, w: Watch)
    requires Held(f, w)
    ensures f.Valid() && OnlyInWindow(f.l, f.log, |f.log|, 0, 0) && Throughout(f.l, f.log, Since(w.span.marked, false, 0))
  {
    hide Sub, NoSuperAdmin, Seeded;
  }

  lemma Unquiet(f: Files, w: Watch)
    requires Held(f, w)
    ensures Held(f, w.(span := Since(w.span.marked, false, 0)))
  {
    hide Sub, NoSuperAdmin, Seeded;
  }

  lemma Requiet(f: Files, n: nat, base: Base)
    requires Held(f, Watch(Since(n, false, 0), false, base)) && NoSuperAdmin(Sub(f.fs, f.l.kubernetesDir))
    ensures Held(f, Watch(Since(n, true, |f.log| - 1), false, base))
  {
    hide Sub, NoSuperAdmin, Seeded;
  }

  lemma InWindow(f: Files, n: nat, before: seq<Tree>, base: Base, calm: bool)
    requires Held(f, Watch(Since(n, false, 0), false, base)) && before <= f.log && (calm ==> OnlyInWindow(f.l, before, n, 0, 0))
    ensures f.Valid() && (calm ==> OnlyInWindow(f.l, f.log, n, |before|, |f.log|)) && Throughout(f.l, f.log, Since(n, false, 0))
    ensures OnlyInWindow(f.l, f.log, |f.log|, 0, 0)
  {
    hide Sub, NoSuperAdmin, Seeded;
  }

  lemma AfterWindow(f: Files, n: nat, before: seq<Tree>, first: nat, past: nat, base: Base, calm: bool)
    requires Held(f, Watch(Since(n, true, past), false, base)) && before <= f.log && first == |before| <= past
    requires calm ==> OnlyInWindow(f.l, before, n, 0, 0)
    ensures f.Valid() && (calm ==> OnlyInWindow(f.l, f.log, n, first, past)) && Throughout(f.l, f.log, Since(n, false, 0))
    ensures OnlyInWindow(f.l, f.log, past, 0, 0)
  {
    hide Sub, NoSuperAdmin, Seeded;
  }

  lemma HeldIsInitialised(f: Files, lb: LastBoot, w: Watch)
    requires Held(f, w) && w.span.quiet && RecordIn(Sub(f.fs, f.l.LastBootFile())) == Some(lb)
    ensures Initialised(f.l, f.fs, lb, w.base)
  {}

  /** Up to the kubeconfigs: everything that init seeds before it starts anything. */
  method Seed(f: Files, issue: Issuance, ghost k0: Tree) returns (ok: bool)
    requires f.Valid() && !Exists(f.fs, f.l.picoKubeVarDir) && k0 == Sub(f.fs, f.l.kubernetesDir)
    modifies f
    ensures old(f.calls) <= f.calls
    ensures !ok ==> Faulty(f.faults, old(f.calls), f.calls) || !Fits(k0, issue)
    ensures ok ==> Assets(PkiFound(k0), issue).Ok? && Seeded(f.l, f.fs, SetOf(CONFS), BaseOf(k0, issue))
    ensures ok ==> forall name | name in CONFS :: ConfFits(k0, name, issue([name]).cluster, BaseOf(k0, issue).pki)
    ensures ok ==> Sub(Sub(f.fs, f.l.kubernetesDir), [SUPER_ADMIN]) == Sub(k0, [SUPER_ADMIN])
    ensures Clear(f.l, f.log, |old(f.log)|, NoSuperAdmin(k0))
    ensures f.Valid() && old(f.log) < f.log
  {
    hide Sub, Graft, Seeded, VarReady, Assets, NoSuperAdmin, Throughout, ConfFits, AsFound, Clear;
    ghost var n, calm := |f.log|, NoSuperAdmin(k0);
    ok := Preflight(f, k0);
    if !ok { return; }
    ghost var log := f.log;
    ok := SeedPki(f, issue, k0);
    ClearOn(f.l, log, f.log, n, calm);
    if !ok { return; }
    log := f.log;
    ProbeIsNoEntry();
    ok := SeedKubeconfigs(f, issue, BaseOf(k0, issue));
    ClearOn(f.l, log, f.log, n, calm);
  }

  /** Run, on a node `state.Exists` says no of, whatever else is on it. It fails only when
      a call does or something it finds in the kubernetes directory does not fit, and
      then always; on success the node is initialised. At every moment, deaths included,
      super-admin.conf is there only inside its window, from the moment `first`, when
      everything else was seeded, or from the start if it was found, to before `past`,
      and a successful run has past it. From the first directory on `state.Exists` says
      yes, so a run that failed is not repeated over itself. */
  method Run(f: Files, lb: LastBoot, rendered: Rendered, issue: Issuance, kubelet: nat -> Tree, polls: nat)
    returns (ok: bool, ghost first: nat, ghost past: nat)
    requires f.Valid() && !StateExists(f.l, f.fs)
    modifies f
    ensures old(f.calls) <= f.calls
    ensures !ok ==> Faulty(f.faults, old(f.calls), f.calls) || !Fits(old(Sub(f.fs, f.l.kubernetesDir)), issue)
    ensures ok ==> Fits(old(Sub(f.fs, f.l.kubernetesDir)), issue) && past < |f.log|
                   && Initialised(f.l, f.fs, lb, BaseOf(old(Sub(f.fs, f.l.kubernetesDir)), issue))
    ensures first <= past <= |f.log| && OnlyInWindow(f.l, f.log, |old(f.log)|, first, past)
    ensures NoSuperAdmin(old(Sub(f.fs, f.l.kubernetesDir))) && first < past ==>
              && |old(f.log)| < first && Assets(PkiFound(old(Sub(f.fs, f.l.kubernetesDir))), issue).Ok?
              && Seeded(f.l, f.log[first - 1], LEAF_CONFS, BaseOf(old(Sub(f.fs, f.l.kubernetesDir)), issue))
    ensures forall i | |old(f.log)| <= i < |f.log| :: f.log[i] == f.log[i - 1] || [] in Sub(f.log[i], f.l.picoKubeVarDir)
    ensures f.Valid() && old(f.log) <= f.log
  {
    hide Sub, Graft, Seeded, RecordIn, Assets, NoSuperAdmin, IsKubeconfig, Throughout, ConfFits, Clear, Initialised,
      StateExists, Exists, OnlyInWindow;
    ghost var k0, n := Sub(f.fs, f.l.kubernetesDir), |f.log|;
    ghost var calm := NoSuperAdmin(k0);
    NoStateNoVar(f.l, f.fs);
    ok := Seed(f, issue, k0);
    first, past := if calm then 0 else n, if calm then 0 else |f.log|;
    if !ok {
      SeededClear(f.l, f.log, n, calm);
      return;
    }
    ghost var log, base := f.log, BaseOf(k0, issue);
    StartHeld(f, base);
    ghost var first';
    ok, first', past := Bring(f, lb, rendered, issue, kubelet, polls, |log|, base);
    first := if calm then first' else n;
    BroughtClear(f.l, log, f.log, n, first', past, calm);
  }

  lemma NoStateNoVar(l: Layout, fs: Tree)
    requires !StateExists(l, fs)
    ensures !Exists(fs, l.picoKubeVarDir)
  {}

  lemma StartHeld(f: Files, base: Base)
    requires f.Valid() && Seeded(f.l, f.fs, SetOf(CONFS), base)
    requires Sub(Sub(f.fs, f.l.kubernetesDir), [SUPER_ADMIN]) == Sub(base.was, [SUPER_ADMIN])
    ensures Held(f, Watch(Since(|f.log|, NoSuperAdmin(base.was), |f.log|), true, base))
    ensures IsKubeconfig(Sub(Sub(f.fs, f.l.kubernetesDir), [KUBELET_CONF]))
  {
    hide Sub, NoSuperAdmin, Seeded, IsKubeconfig;
    SeededFewer(f.l, f.fs, base);
    SameSuper(base.was, Sub(f.fs, f.l.kubernetesDir));
  }

  lemma SeededClear(l: Layout, log: seq<Tree>, n: nat, calm: bool)
    requires 0 < n <= |log| && Clear(l, log, n, calm)
    ensures OnlyInWindow(l, log, n, if calm then 0 else n, if calm then 0 else |log|)
    ensures forall i | n <= i < |log| :: log[i] == log[i - 1] || [] in Sub(log[i], l.picoKubeVarDir)
  {
    hide Sub, NoSuperAdmin;
  }

  lemma BroughtClear(l: Layout, before: seq<Tree>, log: seq<Tree>, n: nat, first: nat, past: nat, calm: bool)
    requires 0 < n <= |before| && Clear(l, before, n, calm) && before <= log
    requires if calm then OnlyInWindow(l, log, |before|, first, past) && (first < past ==> |before| <= first)
             else OnlyInWindow(l, log, past, 0, 0)
    requires Throughout(l, log, Since(|before|, false, 0))
    ensures OnlyInWindow(l, log, n, if calm then first else n, past)
    ensures forall i | n <= i < |log| :: log[i] == log[i - 1] || [] in Sub(log[i], l.picoKubeVarDir)
  {
    hide Sub, NoSuperAdmin;
    forall i | n <= i < |log|
      ensures log[i] == log[i - 1] || [] in Sub(log[i], l.picoKubeVarDir)
      ensures !((if calm then first else n) <= i < past) ==> NoSuperAdmin(Sub(log[i], l.kubernetesDir)) {
      if i < |before| {
        assert before[i] == log[i] && before[i - 1] == log[i - 1];
      }
    }
  }

  /** What a successful init leaves is where the boot protocol starts. */
  lemma InitialisedIsInit(l: Layout, m: Moment, lb: LastBoot, base: Base)
    requires WellFormed(l) && Initialised(l, m.fs, lb, base)
    requires m.mark.pc.Idle? && m.mark.hist == History(map[], false, {})
    requires var env := m.mark.env;
             && env.bootID in env.used && (forall b | b in env.used :: GoodBootID(b)) && '_' !in env.deployment
             && (if env.ostree then env.deployment in env.known else env.deployment == "")
             && lb.deploymentID == env.deployment && lb.bootID == env.bootID
    ensures Init(View(l, m))
  {
    hide Sub, Live, RecordIn, PkiReady, NoSuperAdmin, ConfReady, GoodBootID;
    SubOfSub(m.fs, l.picoKubeVarDir, ["backups"]);
    NoEntries(m.mtimes);
  }

  /** It has all three CA certificates, no super-admin.conf, and every leaf of the PKI
      directory signed. A kubeconfig is signed by the CA exactly when it was not there
      before, or was already: that one for the right cluster lies in the kubernetes
      directory is enough for init to keep it. */
  lemma InitialisedIsTrusted(l: Layout, fs: Tree, lb: LastBoot, base: Base)
    requires Initialised(l, fs, lb, base)
    ensures var k := Sub(fs, l.kubernetesDir);
            && HasCAs(k) && NoSuperAdmin(k)
            && (forall leaf: Leaf | IsPki(leaf) :: Chains(k, leaf))
            && forall leaf: Leaf | !IsPki(leaf) && !leaf.SuperAdminConf? ::
                 Chains(k, leaf) <==> Sub(base.was, [ConfName(leaf)]) == map[] || SignedUnder(Sub(base.was, [ConfName(leaf)]), base.pki)
  {
    hide Sub, Crt, Key, RecordIn, VarReady;
    var k := Sub(fs, l.kubernetesDir);
    forall ca: CA ensures Exists(k, [PKI] + Crt(Authority(ca))) {
      PresentExists(k, ca);
    }
    forall leaf: Leaf | IsPki(leaf) ensures Chains(k, leaf) {
      assert Signed(Sub(k, [PKI]), leaf);
    }
    forall leaf: Leaf | !IsPki(leaf) && !leaf.SuperAdminConf?
      ensures Chains(k, leaf) <==> Sub(base.was, [ConfName(leaf)]) == map[] || SignedUnder(Sub(base.was, [ConfName(leaf)]), base.pki) {
      assert ConfName(leaf) in LEAF_CONFS;
      assert ConfDone(k, ConfName(leaf), base);
    }
  }

  /** So from a node without a kubernetes directory every leaf is signed. */
  lemma CleanInitIsTrusted(l: Layout, fs: Tree, lb: LastBoot, issue: Issuance)
    requires Fits(map[], issue) && Initialised(l, fs, lb, BaseOf(map[], issue))
    ensures forall leaf: Leaf | !leaf.SuperAdminConf? :: Chains(Sub(fs, l.kubernetesDir), leaf)
  {
    hide Sub, Initialised, Chains, Assets, SignedUnder;
    var base := BaseOf(map[], issue);
    InitialisedIsTrusted(l, fs, lb, base);
    forall leaf: Leaf | !leaf.SuperAdminConf? ensures Chains(Sub(fs, l.kubernetesDir), leaf) {
      if !IsPki(leaf) {
        NothingThere([ConfName(leaf)]);
      }
    }
  }

  lemma NoEntries(mtimes: map<string, nat>)
    ensures Backups(map[], mtimes) == map[]
  {
    assert Entries(map[]) == {};
  }

  lemma PresentExists(k: Tree, ca: CA)
    requires Present(Sub(k, [PKI]), Authority(ca))
    ensures Exists(k, [PKI] + Crt(Authority(ca)))
  {
    hide Sub, Crt, Key;
    SubOfSub(k, [PKI], Crt(Authority(ca)));
    InSub(Sub(k, [PKI]), Crt(Authority(ca)), []);
    assert Crt(Authority(ca)) + [] == Crt(Authority(ca));
  }
}
