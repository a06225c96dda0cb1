/** internal/layout: where everything lives, and the state of the boot protocol
    read off a file tree. */
module Layouts {
  import opened Types
  import opened Trees
  import opened Names
  import opened Protocol

  datatype Layout = Layout(picoKubeVarDir: Path, kubernetesDir: Path, kubeletDir: Path, etcdDataDir: Path) {
    function BackupsDir(): Path { picoKubeVarDir + ["backups"] }
    function StateDir(): Path { picoKubeVarDir + ["state"] }
    function LastBootFile(): Path { StateDir() + ["last-boot.json"] }
    function RestoreMarker(): Path { BackupsDir() + ["restore"] }
    function Staging(): Path { BackupsDir() + [".staging"] }
    function PkiDir(): Path { kubernetesDir + ["pki"] }
  }

  const DEFAULT := Layout(["var", "lib", "picokube"], ["etc", "kubernetes"], ["var", "lib", "kubelet"], ["var", "lib", "etcd"])

  const KUBELET_FILES: seq<string> := ["config.yaml", "instance-config.yaml", "kubeadm-flags.env"]

  /** `<p>.restoring`: the sibling a restore stages into. */
  function Sibling(p: Path): Path
    requires p != []
  {
    p[..|p| - 1] + [p[|p| - 1] + ".restoring"]
  }

  /** The directories picokube owns, and the restore siblings of two of them, do
      not contain one another. */
  function Roots(l: Layout): seq<Path>
    requires l.etcdDataDir != [] && l.kubernetesDir != []
  {
    [l.picoKubeVarDir, l.kubernetesDir, l.kubeletDir, l.etcdDataDir, Sibling(l.kubernetesDir), Sibling(l.etcdDataDir)]
  }

  ghost predicate WellFormed(l: Layout) {
    && l.etcdDataDir != [] && l.kubernetesDir != []
    && forall i, j | 0 <= i < j < |Roots(l)| :: Apart(Roots(l)[i], Roots(l)[j])
  }

  lemma ApartAt(p: Path, q: Path, i: nat)
    requires i < |p| && i < |q| && p[i] != q[i]
    ensures Apart(p, q)
  {
    UnderAt(p, q, i);
    UnderAt(q, p, i);
  }

  lemma DefaultWellFormed()
    ensures WellFormed(DEFAULT)
  {
    var r := Roots(DEFAULT);
    assert "kubernetes" + ".restoring" == "kubernetes.restoring" && "etcd" + ".restoring" == "etcd.restoring";
    assert r[4] == ["etc", "kubernetes.restoring"] && r[5] == ["var", "lib", "etcd.restoring"];
    ApartAt(r[1], r[4], 1);
    forall i, j | 0 <= i < j < |r| && (i == 1 || i == 4 || j == 1 || j == 4) && !(i == 1 && j == 4) ensures Apart(r[i], r[j]) {
      ApartAt(r[i], r[j], 0);
    }
    forall i, j | 0 <= i < j < |r| && i != 1 && i != 4 && j != 1 && j != 4 ensures Apart(r[i], r[j]) {
      ApartAt(r[i], r[j], 2);
    }
  }

  /** The live path of each covered part. */
  function LivePath(l: Layout, i: nat): Path
    requires i < PARTS
  {
    if i == 0 then l.etcdDataDir
    else if i == 1 then l.kubernetesDir
    else l.kubeletDir + [KUBELET_FILES[i - 2]]
  }

  /** Where a part sits inside a backup directory. */
  function PartPath(i: nat): Path
    requires i < PARTS
  {
    if i == 0 then ["etcd"] else if i == 1 then ["kubernetes"] else ["kubelet", KUBELET_FILES[i - 2]]
  }

  const META: Path := ["meta.json"]

  // ---- reading the protocol state ----

  function Live(l: Layout, fs: Tree): (live: seq<Tree>)
    ensures |live| == PARTS
  {
    seq(PARTS, i requires 0 <= i < PARTS => Sub(fs, LivePath(l, i)))
  }

  function Content(dir: Tree): (content: seq<Tree>)
    ensures |content| == PARTS
  {
    seq(PARTS, i requires 0 <= i < PARTS => Sub(dir, PartPath(i)))
  }

  /** The record in a tree that is a single JSON file. */
  function RecordIn(file: Tree): Option<LastBoot> {
    if [] in file && file[[]].File? && file[[]].data.BootRecord? then Some(file[[]].data.boot) else None
  }

  /** What is at the top of the tree is a directory. */
  predicate IsDirectory(t: Tree) {
    t != map[] && !(t.Keys == {[]} && t[[]].File?)
  }

  /** An entry of the backups directory with the name of a backup. `List` also asks
      for a directory; the protocol's invariant rules out any other. */
  predicate Listed(vault: Tree, n: string) {
    Listable(n) && Sub(vault, [n]) != map[]
  }

  function Entries(vault: Tree): set<string> {
    set q | q in vault && |q| > 0 :: q[0]
  }

  function BackupIn(dir: Tree, mtime: nat): Backup {
    Backup(RecordIn(Sub(dir, META)), Content(dir), mtime)
  }

  function Mtime(mtimes: map<string, nat>, n: string): nat {
    if n in mtimes then mtimes[n] else 0
  }

  function Backups(vault: Tree, mtimes: map<string, nat>): (bs: map<string, Backup>)
  {
    map n | n in Entries(vault) && Listed(vault, n) :: BackupIn(Sub(vault, [n]), Mtime(mtimes, n))
  }

  lemma BackupsAt(vault: Tree, mtimes: map<string, nat>, n: string)
    ensures n in Backups(vault, mtimes) <==> Listed(vault, n)
    ensures Listed(vault, n) ==> Backups(vault, mtimes)[n] == BackupIn(Sub(vault, [n]), Mtime(mtimes, n))
  {
    if Listed(vault, n) {
      var r :| r in Sub(vault, [n]);
      InSub(vault, [n], r);
      assert [n] + r in vault && ([n] + r)[0] == n;
    }
  }

  function StoreOf(l: Layout, fs: Tree, mtimes: map<string, nat>, clock: nat): Store {
    Store(Live(l, fs), Backups(Sub(fs, l.BackupsDir()), mtimes), RecordIn(Sub(fs, l.LastBootFile())),
          Exists(fs, l.RestoreMarker()), clock)
  }

  // ---- what an operation at one path changes ----

  /** Directory modification times, kept for the entries of the backups directory:
      an operation on an entry, or inside it, freshens it. */
  function Touched(l: Layout, mtimes: map<string, nat>, p: Path, clock: nat): map<string, nat> {
    var b := l.BackupsDir();
    if Under(b, p) && |p| > |b| then mtimes[p[|b|] := clock] else mtimes
  }

  lemma SameBackupsWhen(vault: Tree, mtimes: map<string, nat>, vault': Tree, mtimes': map<string, nat>)
    requires forall n | Listable(n) :: Sub(vault', [n]) == Sub(vault, [n]) && Mtime(mtimes', n) == Mtime(mtimes, n)
    ensures Backups(vault', mtimes') == Backups(vault, mtimes)
  {
    forall n ensures SameEntry(Backups(vault', mtimes'), Backups(vault, mtimes), n) {
      BackupsAt(vault, mtimes, n);
      BackupsAt(vault', mtimes', n);
      if Listable(n) {
        assert Sub(vault', [n]) == Sub(vault, [n]);
      }
    }
    BackupsExtensionality(Backups(vault', mtimes'), Backups(vault, mtimes));
  }

  ghost predicate SameEntry(x: map<string, Backup>, y: map<string, Backup>, n: string) {
    (n in x <==> n in y) && (n in x ==> x[n] == y[n])
  }

  lemma BackupsExtensionality(x: map<string, Backup>, y: map<string, Backup>)
    requires forall n :: SameEntry(x, y, n)
    ensures x == y
  {
    assert forall n | n in x :: SameEntry(x, y, n);
    assert forall n | n in y :: SameEntry(x, y, n);
  }

  lemma RootsApart(l: Layout, i: nat, j: nat, p: Path, q: Path)
    requires WellFormed(l) && i < |Roots(l)| && j < |Roots(l)| && i != j
    ensures Apart(Roots(l)[i] + p, Roots(l)[j] + q)
  {
    var a, b := Roots(l)[i], Roots(l)[j];
    if i > j {
      ApartSymmetric(a, b);
    }
    ApartBelow(a, b, q);
    ApartSymmetric(a, b + q);
    ApartBelow(b + q, a, p);
    ApartSymmetric(b + q, a + p);
  }
}
