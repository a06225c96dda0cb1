/** What one file-system operation does to the protocol state read off the tree,
    by where it happens. */
module Effects {
  import opened Types
  import opened Trees
  import opened Names
  import opened Protocol
  import opened Layouts

  /** Process and history state that is not on disk. */
  datatype Mark = Mark(env: Env, pc: Pc, hist: History)

  datatype Moment = Moment(fs: Tree, mtimes: map<string, nat>, clock: nat, mark: Mark)

  function View(l: Layout, m: Moment): State {
    State(m.mark.env, StoreOf(l, m.fs, m.mtimes, m.clock), m.mark.pc, m.mark.hist)
  }

  /** The moment after an operation at `p` that leaves the tree `t` there. */
  function After(l: Layout, m: Moment, p: Path, t: Tree): Moment {
    m.(fs := Graft(m.fs, p, t), mtimes := Touched(l, m.mtimes, p, m.clock), clock := m.clock + 1)
  }

  // ---- which paths are apart ----

  function RootOf(i: nat): nat {
    if i == 0 then 3 else if i == 1 then 1 else 2
  }

  lemma LivePathRoot(l: Layout, i: nat)
    requires WellFormed(l) && i < PARTS
    ensures LivePath(l, i) == Roots(l)[RootOf(i)] + (if i < 2 then [] else [KUBELET_FILES[i - 2]])
  {
    assert LivePath(l, i) + [] == LivePath(l, i);
  }

  lemma LiveApartFromRoot(l: Layout, i: nat, k: nat, x: Path)
    requires WellFormed(l) && i < PARTS && k < |Roots(l)| && k != RootOf(i)
    ensures Apart(Roots(l)[k] + x, LivePath(l, i))
  {
    LivePathRoot(l, i);
    RootsApart(l, k, RootOf(i), x, if i < 2 then [] else [KUBELET_FILES[i - 2]]);
  }

  lemma KubeletFilesDiffer(i: nat, j: nat)
    requires i < 3 && j < 3 && i != j
    ensures KUBELET_FILES[i] != KUBELET_FILES[j]
  {
    assert |KUBELET_FILES[0]| == 11 && |KUBELET_FILES[1]| == 20 && |KUBELET_FILES[2]| == 17;
  }

  lemma LiveApart(l: Layout, i: nat, j: nat)
    requires WellFormed(l) && i < PARTS && j < PARTS && i != j
    ensures Apart(LivePath(l, i), LivePath(l, j))
  {
    LivePathRoot(l, i);
    LivePathRoot(l, j);
    if RootOf(i) != RootOf(j) {
      RootsApart(l, RootOf(i), RootOf(j), if i < 2 then [] else [KUBELET_FILES[i - 2]], if j < 2 then [] else [KUBELET_FILES[j - 2]]);
    } else {
      KubeletFilesDiffer(i - 2, j - 2);
      ApartSiblings(l.kubeletDir, KUBELET_FILES[i - 2], [], KUBELET_FILES[j - 2], []);
      assert l.kubeletDir + [KUBELET_FILES[i - 2]] + [] == LivePath(l, i);
      assert l.kubeletDir + [KUBELET_FILES[j - 2]] + [] == LivePath(l, j);
    }
  }

  lemma VarApartFromLive(l: Layout, x: Path, i: nat)
    requires WellFormed(l) && i < PARTS
    ensures Apart(l.picoKubeVarDir + x, LivePath(l, i))
  {
    LiveApartFromRoot(l, i, 0, x);
  }

  lemma BackupsApartFromState(l: Layout, x: Path, y: Path)
    ensures Apart(l.BackupsDir() + x, l.StateDir() + y)
    ensures Apart(l.StateDir() + y, l.BackupsDir() + x)
  {
    ApartSiblings(l.picoKubeVarDir, "backups", x, "state", y);
  }

  // ---- operations nobody looks at ----

  /** Places the protocol state does not depend on: the staging directory, the
      restore siblings, kubelet's other files, temporary state files, and whatever
      else is in picokube's directory. */
  predicate Hidden(l: Layout, p: Path)
    requires l.etcdDataDir != [] && l.kubernetesDir != []
  {
    || Under(l.Staging(), p)
    || Under(Sibling(l.etcdDataDir), p)
    || Under(Sibling(l.kubernetesDir), p)
    || (Under(l.kubeletDir, p) && |p| > |l.kubeletDir| && p[|l.kubeletDir|] !in KUBELET_FILES)
    || (Under(l.StateDir(), p) && |p| > |l.StateDir()| && p[|l.StateDir()|] != "last-boot.json")
    || Elsewhere(l, p)
  }

  /** In picokube's directory, but neither among the backups nor in the state. */
  predicate Elsewhere(l: Layout, p: Path) {
    var v := l.picoKubeVarDir;
    Under(v, p) && |p| > |v| && p[|v|] != "backups" && p[|v|] != "state"
  }

  lemma Split(p: Path, q: Path) returns (r: Path)
    requires Under(p, q)
    ensures q == p + r
  {
    r := q[|p|..];
  }

  lemma SplitAt(p: Path, q: Path) returns (r: Path)
    requires Under(p, q) && |p| < |q|
    ensures q == p + [q[|p|]] + r
  {
    r := q[|p| + 1..];
    assert q == q[..|p|] + [q[|p|]] + q[|p| + 1..];
  }

  lemma HiddenApartFromLive(l: Layout, p: Path, i: nat)
    requires WellFormed(l) && Hidden(l, p) && i < PARTS
    ensures Apart(p, LivePath(l, i))
  {
    if Under(l.Staging(), p) {
      var r := Split(l.Staging(), p);
      assert p == l.picoKubeVarDir + (["backups"] + [".staging"] + r);
      VarApartFromLive(l, ["backups"] + [".staging"] + r, i);
    } else if Under(Sibling(l.etcdDataDir), p) {
      var r := Split(Sibling(l.etcdDataDir), p);
      LiveApartFromRoot(l, i, 5, r);
    } else if Under(Sibling(l.kubernetesDir), p) {
      var r := Split(Sibling(l.kubernetesDir), p);
      LiveApartFromRoot(l, i, 4, r);
    } else if Under(l.StateDir(), p) {
      var r := Split(l.StateDir(), p);
      assert p == l.picoKubeVarDir + (["state"] + r);
      VarApartFromLive(l, ["state"] + r, i);
    } else if Elsewhere(l, p) {
      var r := Split(l.picoKubeVarDir, p);
      VarApartFromLive(l, r, i);
    } else {
      var r := SplitAt(l.kubeletDir, p);
      var x := [p[|l.kubeletDir|]] + r;
      assert p == l.kubeletDir + x;
      if i < 2 {
        LiveApartFromRoot(l, i, 2, x);
      } else {
        ApartSiblings(l.kubeletDir, p[|l.kubeletDir|], r, KUBELET_FILES[i - 2], []);
        assert l.kubeletDir + [KUBELET_FILES[i - 2]] + [] == LivePath(l, i);
      }
    }
  }

  lemma HiddenApartFromLastBoot(l: Layout, p: Path)
    requires WellFormed(l) && Hidden(l, p)
    ensures Apart(p, l.LastBootFile())
  {
    if Under(l.Staging(), p) {
      var r := Split(l.Staging(), p);
      BackupsApartFromState(l, [".staging"] + r, ["last-boot.json"]);
      assert p == l.BackupsDir() + ([".staging"] + r);
    } else if Under(Sibling(l.etcdDataDir), p) || Under(Sibling(l.kubernetesDir), p) || Under(l.kubeletDir, p) {
      var k := if Under(Sibling(l.etcdDataDir), p) then 5 else if Under(Sibling(l.kubernetesDir), p) then 4 else 2;
      var r := Split(Roots(l)[k], p);
      RootsApart(l, k, 0, r, ["state"] + ["last-boot.json"]);
      assert l.picoKubeVarDir + (["state"] + ["last-boot.json"]) == l.LastBootFile();
    } else if Elsewhere(l, p) {
      var r := SplitAt(l.picoKubeVarDir, p);
      ApartSiblings(l.picoKubeVarDir, p[|l.picoKubeVarDir|], r, "state", ["last-boot.json"]);
    } else {
      var r := SplitAt(l.StateDir(), p);
      ApartSiblings(l.StateDir(), p[|l.StateDir()|], r, "last-boot.json", []);
      assert l.StateDir() + ["last-boot.json"] + [] == l.LastBootFile();
    }
  }

  lemma HiddenInVault(l: Layout, p: Path)
    requires WellFormed(l) && Hidden(l, p)
    ensures Under(l.Staging(), p) || Apart(p, l.BackupsDir())
  {
    if !Under(l.Staging(), p) {
      if Under(l.StateDir(), p) {
        var r := Split(l.StateDir(), p);
        BackupsApartFromState(l, [], r);
        assert l.BackupsDir() + [] == l.BackupsDir();
      } else if Elsewhere(l, p) {
        var r := SplitAt(l.picoKubeVarDir, p);
        ApartSiblings(l.picoKubeVarDir, p[|l.picoKubeVarDir|], r, "backups", []);
        assert l.BackupsDir() + [] == l.BackupsDir();
      } else {
        var k := if Under(Sibling(l.etcdDataDir), p) then 5 else if Under(Sibling(l.kubernetesDir), p) then 4 else 2;
        var r := Split(Roots(l)[k], p);
        RootsApart(l, k, 0, r, ["backups"]);
      }
    }
  }

  lemma ListableIsVisible(n: string)
    requires Listable(n)
    ensures n != ".staging" && n != "restore"
  {
    assert '_' !in ".staging" && '_' !in "restore";
  }

  /** Changing an entry that is not listed leaves the backups. */
  lemma UnlistedEntry(l: Layout, m: Moment, c: string, x: Path, t: Tree)
    requires !Listable(c)
    ensures var p := l.BackupsDir() + [c] + x;
            var m' := After(l, m, p, t);
            Backups(Sub(m'.fs, l.BackupsDir()), m'.mtimes) == Backups(Sub(m.fs, l.BackupsDir()), m.mtimes)
  {
    hide Sub, Graft, Backups;
    var b := l.BackupsDir();
    var p := b + [c] + x;
    assert p == b + ([c] + x);
    SubGraftAbove(m.fs, b, [c] + x, t);
    var v, v' := Sub(m.fs, b), Sub(After(l, m, p, t).fs, b);
    UnderSelf(b, [c] + x);
    assert p[|b|] == c;
    forall n | Listable(n)
      ensures Sub(v', [n]) == Sub(v, [n]) && Mtime(After(l, m, p, t).mtimes, n) == Mtime(m.mtimes, n)
    {
      ApartSiblings([], c, x, n, []);
      assert [] + [c] + x == [c] + x && [] + [n] + [] == [n];
      SubGraftApart(v, [c] + x, t, [n]);
    }
    SameBackupsWhen(v, m.mtimes, v', After(l, m, p, t).mtimes);
  }

  lemma ApartFromVault(l: Layout, m: Moment, p: Path, t: Tree)
    requires Apart(p, l.BackupsDir())
    ensures var m' := After(l, m, p, t);
            && Backups(Sub(m'.fs, l.BackupsDir()), m'.mtimes) == Backups(Sub(m.fs, l.BackupsDir()), m.mtimes)
            && Exists(m'.fs, l.RestoreMarker()) == Exists(m.fs, l.RestoreMarker())
  {
    hide Sub, Graft, Backups;
    SubGraftApart(m.fs, p, t, l.BackupsDir());
    ApartBelow(p, l.BackupsDir(), ["restore"]);
    SubGraftApart(m.fs, p, t, l.RestoreMarker());
  }

  lemma SameLive(l: Layout, m: Moment, p: Path, t: Tree)
    requires forall i: nat | i < PARTS :: Apart(p, LivePath(l, i))
    ensures Live(l, After(l, m, p, t).fs) == Live(l, m.fs)
  {
    hide Sub, Graft;
    forall i: nat | i < PARTS ensures Live(l, After(l, m, p, t).fs)[i] == Live(l, m.fs)[i] {
      SubGraftApart(m.fs, p, t, LivePath(l, i));
    }
  }

  lemma HiddenKeepsStore(l: Layout, m: Moment, p: Path, t: Tree)
    requires WellFormed(l) && Hidden(l, p)
    ensures View(l, After(l, m, p, t)).store == View(l, m).store.(clock := m.clock + 1)
  {
    hide Sub, Graft, Backups, Live, Hidden;
    forall i: nat | i < PARTS ensures Apart(p, LivePath(l, i)) {
      HiddenApartFromLive(l, p, i);
    }
    SameLive(l, m, p, t);
    HiddenApartFromLastBoot(l, p);
    SubGraftApart(m.fs, p, t, l.LastBootFile());
    HiddenInVault(l, p);
    if Under(l.Staging(), p) {
      var r := Split(l.Staging(), p);
      assert !Listable(".staging") by { assert '_' !in ".staging"; }
      assert p == l.BackupsDir() + [".staging"] + r;
      UnlistedEntry(l, m, ".staging", r, t);
      ApartSiblings(l.BackupsDir(), ".staging", r, "restore", []);
      assert l.BackupsDir() + ["restore"] + [] == l.RestoreMarker();
      SubGraftApart(m.fs, p, t, l.RestoreMarker());
    } else {
      ApartFromVault(l, m, p, t);
    }
  }

  /** A directory above what is observed. */
  predicate Parent(l: Layout, p: Path) {
    p == l.kubeletDir || p == l.BackupsDir() || p == l.StateDir() || p == l.picoKubeVarDir
  }

  /** Making a directory above everything observed is not seen either. */
  lemma MkdirKeepsStore(l: Layout, m: Moment, p: Path)
    requires WellFormed(l) && Parent(l, p)
    ensures StoreOf(l, Mkdir(m.fs, p), m.mtimes, m.clock) == StoreOf(l, m.fs, m.mtimes, m.clock)
  {
    hide Sub, Backups, Mkdir;
    var fs' := Mkdir(m.fs, p);
    forall i: nat | i < PARTS ensures Sub(fs', LivePath(l, i)) == Sub(m.fs, LivePath(l, i)) {
      NotAboveLive(l, p, i);
      SubMkdir(m.fs, p, LivePath(l, i));
    }
    assert Live(l, fs') == Live(l, m.fs);
    NotAboveState(l, p);
    SubMkdir(m.fs, p, l.LastBootFile());
    SubMkdir(m.fs, p, l.RestoreMarker());
    var b := l.BackupsDir();
    forall n | Listable(n) ensures Sub(Sub(fs', b), [n]) == Sub(Sub(m.fs, b), [n]) {
      SubOfSub(fs', b, [n]);
      SubOfSub(m.fs, b, [n]);
      NotAboveEntry(l, p, n);
      SubMkdir(m.fs, p, b + [n]);
    }
    SameBackupsWhen(Sub(m.fs, b), m.mtimes, Sub(fs', b), m.mtimes);
  }

  lemma NotAboveLive(l: Layout, p: Path, i: nat)
    requires WellFormed(l) && i < PARTS && Parent(l, p)
    ensures !Under(LivePath(l, i), p)
  {
    if p != l.kubeletDir {
      var x := if p == l.BackupsDir() then ["backups"] else if p == l.StateDir() then ["state"] else [];
      VarApartFromLive(l, x, i);
      assert l.picoKubeVarDir + [] == l.picoKubeVarDir;
    } else if i < 2 {
      LiveApartFromRoot(l, i, 2, []);
      assert l.kubeletDir + [] == l.kubeletDir;
    }
  }

  lemma NotAboveEntry(l: Layout, p: Path, n: string)
    requires WellFormed(l) && Parent(l, p)
    ensures !Under(l.BackupsDir() + [n], p)
  {
    if p == l.kubeletDir {
      RootsApart(l, 2, 0, [], ["backups"] + [n]);
      assert l.picoKubeVarDir + (["backups"] + [n]) == l.BackupsDir() + [n] && l.kubeletDir + [] == l.kubeletDir;
    }
  }

  lemma NotAboveState(l: Layout, p: Path)
    requires WellFormed(l) && Parent(l, p)
    ensures !Under(l.LastBootFile(), p) && !Under(l.RestoreMarker(), p)
  {
    NotAboveEntry(l, p, "restore");
    if p == l.kubeletDir {
      RootsApart(l, 2, 0, [], ["state"] + ["last-boot.json"]);
      assert l.picoKubeVarDir + (["state"] + ["last-boot.json"]) == l.LastBootFile() && l.kubeletDir + [] == l.kubeletDir;
    }
  }

  // ---- operations on what is observed ----

  /** Replacing part `i` of the live trees. */
  lemma LivePartStore(l: Layout, m: Moment, i: nat, t: Tree)
    requires WellFormed(l) && i < PARTS
    ensures var s := View(l, m).store;
            View(l, After(l, m, LivePath(l, i), t)).store == s.(live := s.live[i := t], clock := m.clock + 1)
  {
    hide Sub, Graft, Backups;
    var p := LivePath(l, i);
    var m' := After(l, m, p, t);
    forall j: nat | j < PARTS ensures Live(l, m'.fs)[j] == Live(l, m.fs)[i := t][j] {
      if j == i {
        SubGraftSame(m.fs, p, t);
      } else {
        LiveApart(l, i, j);
        SubGraftApart(m.fs, p, t, LivePath(l, j));
      }
    }
    assert Live(l, m'.fs) == Live(l, m.fs)[i := t];
    LiveKeepsTheRest(l, m, i, t, []);
    assert p + [] == p;
  }

  /** An operation at or below a live part leaves last-boot, backups and marker. */
  lemma LiveKeepsTheRest(l: Layout, m: Moment, i: nat, t: Tree, x: Path)
    requires WellFormed(l) && i < PARTS
    ensures var s := View(l, m).store;
            var m' := After(l, m, LivePath(l, i) + x, t);
            View(l, m').store == s.(live := Live(l, m'.fs), clock := m.clock + 1)
  {
    hide Sub, Graft, Backups, Live;
    var p := LivePath(l, i) + x;
    VarApartFromLive(l, ["backups"], i);
    ApartSymmetric(l.BackupsDir(), LivePath(l, i));
    ApartBelow(l.BackupsDir(), LivePath(l, i), x);
    ApartSymmetric(l.BackupsDir(), p);
    ApartFromVault(l, m, p, t);
    assert l.picoKubeVarDir + (["state"] + ["last-boot.json"]) == l.LastBootFile();
    VarApartFromLive(l, ["state"] + ["last-boot.json"], i);
    ApartBelow(l.LastBootFile(), LivePath(l, i), x);
    ApartSymmetric(l.LastBootFile(), p);
    SubGraftApart(m.fs, p, t, l.LastBootFile());
  }

  /** Replacing the last-boot record. */
  lemma LastBootStore(l: Layout, m: Moment, t: Tree)
    requires WellFormed(l)
    ensures var s := View(l, m).store;
            View(l, After(l, m, l.LastBootFile(), t)).store == s.(lastBoot := RecordIn(t), clock := m.clock + 1)
  {
    hide Sub, Graft, Backups, Live;
    var p := l.LastBootFile();
    forall i: nat | i < PARTS ensures Apart(p, LivePath(l, i)) {
      assert l.picoKubeVarDir + (["state"] + ["last-boot.json"]) == p;
      VarApartFromLive(l, ["state"] + ["last-boot.json"], i);
    }
    SameLive(l, m, p, t);
    BackupsApartFromState(l, [], ["last-boot.json"]);
    assert l.BackupsDir() + [] == l.BackupsDir();
    ApartFromVault(l, m, p, t);
    SubGraftSame(m.fs, p, t);
  }

  lemma EntryApart(l: Layout, c: string, x: Path)
    requires WellFormed(l)
    ensures forall i: nat | i < PARTS :: Apart(l.BackupsDir() + [c] + x, LivePath(l, i))
    ensures Apart(l.BackupsDir() + [c] + x, l.LastBootFile())
  {
    forall i: nat | i < PARTS ensures Apart(l.BackupsDir() + [c] + x, LivePath(l, i)) {
      VarApartFromLive(l, ["backups"] + [c] + x, i);
      assert l.BackupsDir() + [c] + x == l.picoKubeVarDir + (["backups"] + [c] + x);
    }
    BackupsApartFromState(l, [c] + x, ["last-boot.json"]);
    assert l.BackupsDir() + ([c] + x) == l.BackupsDir() + [c] + x;
  }

  /** Removing the restore marker. */
  lemma MarkerStore(l: Layout, m: Moment)
    requires WellFormed(l)
    ensures var s := View(l, m).store;
            View(l, After(l, m, l.RestoreMarker(), map[])).store == s.(marker := false, clock := m.clock + 1)
  {
    hide Sub, Graft, Backups, Live;
    var p := l.RestoreMarker();
    assert l.BackupsDir() + ["restore"] + [] == p;
    EntryApart(l, "restore", []);
    SameLive(l, m, p, map[]);
    SubGraftApart(m.fs, p, map[], l.LastBootFile());
    assert !Listable("restore") by { assert '_' !in "restore"; }
    UnlistedEntry(l, m, "restore", [], map[]);
    SubGraftSame(m.fs, p, map[]);
  }

  /** Replacing a whole listed entry, with a given modification time. */
  lemma EntryStore(l: Layout, m: Moment, n: string, t: Tree, mtimes: map<string, nat>)
    requires WellFormed(l) && Listable(n)
    requires forall k | k != n :: Mtime(mtimes, k) == Mtime(m.mtimes, k)
    ensures var s := View(l, m).store;
            var m' := m.(fs := Graft(m.fs, l.BackupsDir() + [n], t), mtimes := mtimes, clock := m.clock + 1);
            && View(l, m').store == s.(backups := View(l, m').store.backups, clock := m.clock + 1)
            && View(l, m').store.backups == if t != map[] then s.backups[n := BackupIn(t, Mtime(mtimes, n))] else s.backups - {n}
  {
    hide Sub, Graft, Backups, Live;
    var b := l.BackupsDir();
    var p := b + [n];
    assert p + [] == p;
    EntryApart(l, n, []);
    SameLive(l, m, p, t);
    SubGraftApart(m.fs, p, t, l.LastBootFile());
    ListableIsVisible(n);
    ApartSiblings(b, n, [], "restore", []);
    assert b + ["restore"] + [] == l.RestoreMarker();
    SubGraftApart(m.fs, p, t, l.RestoreMarker());
    SubGraftAbove(m.fs, b, [n], t);
    var v, v' := Sub(m.fs, b), Sub(Graft(m.fs, p, t), b);
    var want := if t != map[] then Backups(v, m.mtimes)[n := BackupIn(t, Mtime(mtimes, n))] else Backups(v, m.mtimes) - {n};
    forall k ensures SameEntry(Backups(v', mtimes), want, k) {
      BackupsAt(v, m.mtimes, k);
      BackupsAt(v', mtimes, k);
      if k == n {
        SubGraftSame(v, [n], t);
      } else {
        ApartSiblings([], n, [], k, []);
        assert [] + [n] + [] == [n] && [] + [k] + [] == [k];
        SubGraftApart(v, [n], t, [k]);
      }
    }
    BackupsExtensionality(Backups(v', mtimes), want);
  }
}
