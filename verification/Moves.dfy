/** Which calls are which steps of the boot protocol. */
module Moves {
  import opened Types
  import opened Trees
  import opened Names
  import opened Protocol
  import opened Layouts
  import opened Effects
  import opened Disks

  lemma TickCan(l: Layout, m: Moment)
    ensures Can(l, m, Ticked(m))
  {
    assert Tick(View(l, m), View(l, Ticked(m)));
  }

  lemma HiddenCan(l: Layout, m: Moment, p: Path)
    requires WellFormed(l) && Hidden(l, p)
    ensures forall t: Tree :: Can(l, m, After(l, m, p, t))
    ensures forall t: Tree :: Tick(View(l, m), View(l, After(l, m, p, t)))
    ensures Can(l, m, After(l, m, p, map[]).(mark := m.mark))
    ensures forall t: Tree :: Can(l, m, After(l, m, p, t).(mark := m.mark))
  {
    hide Hidden, Graft, Sub, Live, Backups;
    forall t: Tree ensures Can(l, m, After(l, m, p, t)) && Tick(View(l, m), View(l, After(l, m, p, t))) {
      HiddenKeepsStore(l, m, p, t);
      assert Tick(View(l, m), View(l, After(l, m, p, t)));
    }
    forall t: Tree ensures Can(l, m, After(l, m, p, t).(mark := m.mark)) {
      assert After(l, m, p, t).(mark := m.mark) == After(l, m, p, t);
    }
  }

  /** Making a hidden directory, or one above everything observed. */
  lemma MadeCan(l: Layout, m: Moment, p: Path)
    requires WellFormed(l) && (Hidden(l, p) || Parent(l, p))
    ensures Can(l, m, Made(l, m, p)) && Tick(View(l, m), View(l, Made(l, m, p)))
  {
    hide Graft, Hidden, Sub, Live, Backups;
    if Exists(m.fs, p) {
      assert Tick(View(l, m), View(l, Ticked(m)));
    } else if Hidden(l, p) {
      HiddenCan(l, m, p);
    } else {
      MkdirIsGraft(m.fs, p);
      NotInsideBackups(l, p);
      MkdirKeepsStore(l, m, p);
      StoreClock(l, Mkdir(m.fs, p), m.mtimes, m.clock, m.clock + 1);
      assert Tick(View(l, m), View(l, Made(l, m, p)));
    }
  }

  lemma StoreClock(l: Layout, fs: Tree, mtimes: map<string, nat>, a: nat, b: nat)
    ensures StoreOf(l, fs, mtimes, b) == StoreOf(l, fs, mtimes, a).(clock := b)
  {}

  lemma NotInsideBackups(l: Layout, p: Path)
    requires WellFormed(l) && Parent(l, p)
    ensures !Under(l.BackupsDir(), p) || p == l.BackupsDir()
  {
    if p == l.kubeletDir {
      RootsApart(l, 0, 2, ["backups"], []);
      assert p + [] == p;
    } else if p == l.StateDir() {
      BackupsApartFromState(l, [], []);
      assert l.BackupsDir() + [] == l.BackupsDir() && l.StateDir() + [] == l.StateDir();
    }
  }

  // ---- the staging directory is left alone by everything but Create ----

  lemma LiveApartFromStaging(l: Layout, i: nat, x: Path)
    requires WellFormed(l) && i < PARTS
    ensures Apart(LivePath(l, i) + x, l.Staging())
  {
    VarApartFromLive(l, ["backups"] + [".staging"], i);
    assert l.picoKubeVarDir + (["backups"] + [".staging"]) == l.Staging();
    ApartBelow(l.Staging(), LivePath(l, i), x);
    ApartSymmetric(l.Staging(), LivePath(l, i) + x);
  }

  lemma RootApartFromStaging(l: Layout, k: nat, x: Path)
    requires WellFormed(l) && 0 < k < |Roots(l)|
    ensures Apart(Roots(l)[k] + x, l.Staging())
  {
    RootsApart(l, k, 0, x, ["backups"] + [".staging"]);
    assert l.picoKubeVarDir + (["backups"] + [".staging"]) == l.Staging();
  }

  lemma StateApartFromStaging(l: Layout, x: Path)
    ensures Apart(l.StateDir() + x, l.Staging())
  {
    BackupsApartFromState(l, [".staging"], x);
  }

  lemma EntryApartFromStaging(l: Layout, n: string, x: Path)
    requires n != ".staging"
    ensures Apart(l.BackupsDir() + [n] + x, l.Staging())
  {
    ApartSiblings(l.BackupsDir(), n, x, ".staging", []);
    assert l.BackupsDir() + [".staging"] + [] == l.Staging();
  }

  // ---- replacing a live part by way of a hidden path ----

  lemma SiblingHidden(l: Layout, i: nat)
    requires WellFormed(l) && i < 2
    ensures Hidden(l, Sibling(LivePath(l, i)))
  {
    var p := Sibling(LivePath(l, i));
    assert Under(p, p);
  }

  lemma KubeletSiblingHidden(l: Layout, j: nat)
    requires WellFormed(l) && j < 3
    ensures Hidden(l, Sibling(l.kubeletDir + [KUBELET_FILES[j]]))
    ensures Sibling(l.kubeletDir + [KUBELET_FILES[j]]) == l.kubeletDir + [KUBELET_FILES[j] + ".restoring"]
  {
    var f := KUBELET_FILES[j] + ".restoring";
    assert |KUBELET_FILES[0]| == 11 && |KUBELET_FILES[1]| == 20 && |KUBELET_FILES[2]| == 17;
    assert |f| == |KUBELET_FILES[j]| + 10;
    assert f !in KUBELET_FILES;
    UnderSelf(l.kubeletDir, [f]);
    assert (l.kubeletDir + [f])[|l.kubeletDir|] == f;
    assert (l.kubeletDir + [KUBELET_FILES[j]])[..|l.kubeletDir|] == l.kubeletDir;
  }

  function Staged(l: Layout, i: nat): Path
    requires WellFormed(l) && i < PARTS
  {
    Sibling(LivePath(l, i))
  }

  lemma StagedFacts(l: Layout, i: nat)
    requires WellFormed(l) && i < PARTS
    ensures Hidden(l, Staged(l, i)) && Apart(Staged(l, i), l.Staging()) && Apart(LivePath(l, i), l.Staging())
    ensures !Under(l.BackupsDir(), Staged(l, i)) && !Under(l.BackupsDir(), LivePath(l, i))
    ensures Apart(Staged(l, i), LivePath(l, i))
    ensures Apart(Staged(l, i), l.BackupsDir()) && Apart(LivePath(l, i), l.BackupsDir())
    ensures !Under(Staged(l, i), l.picoKubeVarDir) && !Under(LivePath(l, i), l.picoKubeVarDir)
  {
    var k := if i == 0 then 5 else if i == 1 then 4 else 2;
    var x := if i < 2 then [] else [KUBELET_FILES[i - 2] + ".restoring"];
    if i < 2 {
      SiblingHidden(l, i);
    } else {
      KubeletSiblingHidden(l, i - 2);
    }
    assert Staged(l, i) == Roots(l)[k] + x;
    RootApartFromStaging(l, k, x);
    LiveApartFromStaging(l, i, []);
    assert LivePath(l, i) + [] == LivePath(l, i);
    RootsApart(l, k, 0, x, ["backups"]);
    RootsApart(l, k, 0, x, []);
    VarApartFromLive(l, [], i);
    assert l.picoKubeVarDir + [] == l.picoKubeVarDir;
    VarApartFromLive(l, ["backups"], i);
    HiddenApartFromLive(l, Staged(l, i), i);
  }

  /** A path that a restore has no business with: apart from every live part and its
      sibling, and not above the kubelet directory. */
  ghost predicate Outside(l: Layout, q: Path)
    requires WellFormed(l)
  {
    !Under(q, l.kubeletDir) && forall i: nat | i < PARTS :: Apart(LivePath(l, i), q) && Apart(Staged(l, i), q)
  }

  lemma StagingIsOutside(l: Layout)
    requires WellFormed(l)
    ensures Outside(l, l.Staging())
  {
    NotAboveEntry(l, l.kubeletDir, ".staging");
    forall i: nat | i < PARTS ensures Apart(LivePath(l, i), l.Staging()) && Apart(Staged(l, i), l.Staging()) {
      StagedFacts(l, i);
    }
  }

  /** Kubelet's own PKI directory, for one. */
  lemma KubeletPkiIsOutside(l: Layout)
    requires WellFormed(l)
    ensures Outside(l, l.kubeletDir + ["pki"])
  {
    assert |KUBELET_FILES[0]| == 11 && |KUBELET_FILES[1]| == 20 && |KUBELET_FILES[2]| == 17;
    forall i: nat | i < PARTS
      ensures Apart(LivePath(l, i), l.kubeletDir + ["pki"]) && Apart(Staged(l, i), l.kubeletDir + ["pki"]) {
      if i < 2 {
        RootsApart(l, RootOf(i), 2, [], ["pki"]);
        RootsApart(l, if i == 0 then 5 else 4, 2, [], ["pki"]);
        assert LivePath(l, i) + [] == LivePath(l, i) && Staged(l, i) + [] == Staged(l, i);
      } else {
        var f := KUBELET_FILES[i - 2];
        KubeletSiblingHidden(l, i - 2);
        ApartSiblings(l.kubeletDir, f, [], "pki", []);
        ApartSiblings(l.kubeletDir, f + ".restoring", [], "pki", []);
        assert l.kubeletDir + [f] + [] == LivePath(l, i) && l.kubeletDir + ["pki"] + [] == l.kubeletDir + ["pki"];
        assert l.kubeletDir + [f + ".restoring"] + [] == Staged(l, i);
      }
    }
  }

  /** Putting `y` at part `i` while leaving `x` at its hidden sibling. */
  lemma SwapStore(l: Layout, m: Moment, i: nat, x: Tree, y: Tree, q: Path)
    requires WellFormed(l) && i < PARTS && Outside(l, q)
    ensures var fs := Graft(Graft(m.fs, Staged(l, i), x), LivePath(l, i), y);
            var s := View(l, m).store;
            && View(l, m.(fs := fs, clock := m.clock + 1)).store == s.(live := s.live[i := y], clock := m.clock + 1)
            && Sub(fs, q) == Sub(m.fs, q)
  {
    hide Graft, Sub, Live, Backups, Hidden;
    StagedFacts(l, i);
    var h := Staged(l, i);
    var m1 := After(l, m, h, x);
    HiddenKeepsStore(l, m, h, x);
    LivePartStore(l, m1, i, y);
    var m2 := After(l, m1, LivePath(l, i), y);
    assert m2.mtimes == m.mtimes;
    StoreClock(l, m2.fs, m.mtimes, m.clock + 2, m.clock + 1);
    SubGraftApart(m.fs, h, x, q);
    SubGraftApart(m1.fs, LivePath(l, i), y, q);
  }

  /** The backup the protocol sees is the directory on disk. */
  lemma BackupOnDisk(l: Layout, m: Moment, n: string)
    requires n in View(l, m).store.backups
    ensures Listed(Sub(m.fs, l.BackupsDir()), n)
    ensures View(l, m).store.backups[n] == BackupIn(Sub(m.fs, l.BackupsDir() + [n]), Mtime(m.mtimes, n))
    ensures forall i: nat | i < PARTS ::
              View(l, m).store.backups[n].content[i] == Sub(m.fs, l.BackupsDir() + [n] + PartPath(i))
    ensures View(l, m).store.backups[n].meta == RecordIn(Sub(m.fs, l.BackupsDir() + [n] + META))
  {
    hide Sub, Backups;
    BackupsAt(Sub(m.fs, l.BackupsDir()), m.mtimes, n);
    SubOfSub(m.fs, l.BackupsDir(), [n]);
    forall i: nat | i < PARTS
      ensures View(l, m).store.backups[n].content[i] == Sub(m.fs, l.BackupsDir() + [n] + PartPath(i)) {
      SubOfSub(m.fs, l.BackupsDir() + [n], PartPath(i));
    }
    SubOfSub(m.fs, l.BackupsDir() + [n], META);
  }
}
