/** internal/backup, the snapshot half: the workspace and `Create`. */
module Snapshot {
  import opened Types
  import opened Trees
  import opened Names
  import opened Protocol
  import opened Invariant
  import opened Layouts
  import opened Effects
  import opened Disks
  import opened Moves
  import opened Restore

  /** AllocateWorkspace: on success the staging directory is there and empty,
      whatever an earlier attempt left in it. */
  method AllocateWorkspace(d: Disk) returns (ok: bool)
    requires d.Valid()
    modifies d
    ensures d.Valid() && old(d.log) <= d.log && d.mark == old(d.mark)
    ensures Tick(old(d.State()), d.State())
    ensures ok ==> Sub(d.fs, d.l.Staging()) == EMPTY_DIR
    ensures old(d.clock) <= d.clock && (!ok ==> Faulty(d.faults, old(d.clock), d.clock))
  {
    hide Can, Sub, Graft, StoreOf, Hidden, Exists, Next;
    NotAboveEntry(d.l, d.l.BackupsDir(), ".staging");
    ok := MakeDirectory(d, d.l.BackupsDir(), d.l.Staging());
    if !ok { return; }
    ok := Cleanup(d);
    if !ok { return; }
    ghost var m := d.Now();
    StagingHidden(d.l, []);
    assert d.l.Staging() + [] == d.l.Staging();
    MadeCan(d.l, m, d.l.Staging());
    TickCan(d.l, m);
    ViewTicked(d.l, m, Ticked(m));
    ok := d.MkdirAll(d.l.Staging());
    ExistsIs(m.fs, d.l.Staging());
    SubGraftSame(m.fs, d.l.Staging(), EMPTY_DIR);
  }

  /** The deferred cleanup: staging goes, and nothing else. */
  method Cleanup(d: Disk) returns (ok: bool)
    requires d.Valid()
    modifies d
    ensures d.Valid() && old(d.log) <= d.log && d.mark == old(d.mark)
    ensures Tick(old(d.State()), d.State())
    ensures ok ==> Sub(d.fs, d.l.Staging()) == map[]
    ensures old(d.clock) <= d.clock && (!ok ==> Faulty(d.faults, old(d.clock), d.clock))
  {
    hide Can, Sub, Graft, StoreOf, Hidden, Next;
    ghost var m := d.Now();
    var p := d.l.Staging();
    StagingHidden(d.l, []);
    assert p + [] == p;
    HiddenCan(d.l, m, p);
    ok := d.RemoveAll(p, d.mark);
    if ok {
      SubGraftSame(m.fs, p, map[]);
    }
  }

  lemma StagingHidden(l: Layout, x: Path)
    requires WellFormed(l)
    ensures Hidden(l, l.Staging() + x)
  {
    UnderSelf(l.Staging(), x);
  }

  // ---- what is in staging ----

  /** Staging holds the first `|got|` parts and none of the others. */
  ghost predicate HasParts(l: Layout, fs: Tree, got: seq<Tree>) {
    forall j: nat | j < PARTS :: Sub(fs, l.Staging() + PartPath(j)) == if j < |got| then got[j] else map[]
  }

  lemma PartsApart(i: nat, j: nat)
    requires i < PARTS && j < PARTS && i != j
    ensures Apart(PartPath(i), PartPath(j))
  {
    if i >= 2 && j >= 2 {
      KubeletFilesDiffer(i - 2, j - 2);
      ApartAt(PartPath(i), PartPath(j), 1);
    } else {
      ApartAt(PartPath(i), PartPath(j), 0);
    }
  }

  lemma ApartUnder(p: Path, x: Path, y: Path)
    requires Apart(x, y)
    ensures Apart(p + x, p + y)
  {
    UnderShift(p, x, y);
    UnderShift(p, y, x);
  }

  lemma EmptyHasNoParts(l: Layout, fs: Tree)
    requires Sub(fs, l.Staging()) == EMPTY_DIR
    ensures HasParts(l, fs, [])
  {
    hide Sub;
    forall j: nat | j < PARTS ensures Sub(fs, l.Staging() + PartPath(j)) == map[] {
      SubOfSub(fs, l.Staging(), PartPath(j));
      forall r ensures SameAt(Sub(EMPTY_DIR, PartPath(j)), map[], r) {
        InSub(EMPTY_DIR, PartPath(j), r);
        assert |PartPath(j) + r| > 0;
      }
      TreeExtensionality(Sub(EMPTY_DIR, PartPath(j)), map[]);
    }
  }

  lemma PartAdded(l: Layout, m: Moment, got: seq<Tree>, t: Tree)
    requires HasParts(l, m.fs, got) && |got| < PARTS
    ensures HasParts(l, After(l, m, l.Staging() + PartPath(|got|), t).fs, got + [t])
  {
    hide Sub, Graft;
    var k := |got|;
    var p := l.Staging() + PartPath(k);
    forall j: nat | j < PARTS
      ensures Sub(After(l, m, p, t).fs, l.Staging() + PartPath(j)) == if j < k + 1 then (got + [t])[j] else map[] {
      if j == k {
        SubGraftSame(m.fs, p, t);
      } else {
        PartsApart(k, j);
        ApartUnder(l.Staging(), PartPath(k), PartPath(j));
        SubGraftApart(m.fs, p, t, l.Staging() + PartPath(j));
      }
    }
  }

  lemma KubeletDirHasNoParts(l: Layout, m: Moment, got: seq<Tree>)
    requires HasParts(l, m.fs, got)
    ensures HasParts(l, Made(l, m, l.Staging() + ["kubelet"]).fs, got)
  {
    hide Sub, Graft, Exists;
    var p := l.Staging() + ["kubelet"];
    if !Exists(m.fs, p) {
      MkdirIsGraft(m.fs, p);
      forall j: nat | j < PARTS
        ensures Sub(Graft(m.fs, p, EMPTY_DIR), l.Staging() + PartPath(j)) == Sub(m.fs, l.Staging() + PartPath(j)) {
        UnderShift(l.Staging(), PartPath(j), ["kubelet"]);
        assert ["kubelet"][..1] == ["kubelet"] && (|PartPath(j)| == 1 ==> PartPath(j)[0] != "kubelet");
        SubMkdir(m.fs, p, l.Staging() + PartPath(j));
      }
    }
  }

  lemma MetaAdded(l: Layout, m: Moment, got: seq<Tree>, t: Tree)
    requires HasParts(l, m.fs, got)
    ensures HasParts(l, After(l, m, l.Staging() + META, t).fs, got)
    ensures Sub(After(l, m, l.Staging() + META, t).fs, l.Staging() + META) == t
  {
    hide Sub, Graft;
    SubGraftSame(m.fs, l.Staging() + META, t);
    forall j: nat | j < PARTS
      ensures Sub(After(l, m, l.Staging() + META, t).fs, l.Staging() + PartPath(j)) == Sub(m.fs, l.Staging() + PartPath(j)) {
      ApartAt(META, PartPath(j), 0);
      ApartUnder(l.Staging(), META, PartPath(j));
      SubGraftApart(m.fs, l.Staging() + META, t, l.Staging() + PartPath(j));
    }
  }

  // ---- Create ----

  /** Copying part `|got|` into staging, or finding it absent, is the step `CopyPart`. */
  lemma CopyCan(l: Layout, m: Moment, prev: LastBoot, got: seq<Tree>, m': Moment)
    requires WellFormed(l) && m.mark.pc == Copying(prev, got) && |got| < PARTS
    requires View(l, m').store == View(l, m).store.(clock := m'.clock) && m.clock <= m'.clock
    requires m.clock < m'.clock || m.fs == m'.fs
    requires m'.mark == m.mark.(pc := Copying(prev, got + [Sub(m.fs, LivePath(l, |got|))]))
    ensures Can(l, m, m')
  {
    hide Sub, Backups;
    assert CopyPart(View(l, m), View(l, m'));
  }

  /** One part: copyDirIfExists, or copyFileIfExists for a kubelet file. */
  method CopyIfExists(d: Disk, ghost prev: LastBoot, k: nat, ghost got: seq<Tree>) returns (ok: bool)
    requires d.Valid() && d.mark.pc == Copying(prev, got) && k == |got| < PARTS && HasParts(d.l, d.fs, got)
    modifies d
    ensures d.Valid() && old(d.log) <= d.log && Later(old(d.State()), d.State())
    ensures d.State() == old(d.State()).(store := old(d.State().store).(clock := d.clock), pc := d.mark.pc)
    ensures ok ==> d.mark.pc == Copying(prev, got + [old(d.State().store.live)[k]])
                   && HasParts(d.l, d.fs, got + [old(d.State().store.live)[k]])
    ensures old(d.clock) <= d.clock && (!ok ==> Faulty(d.faults, old(d.clock), d.clock))
  {
    hide Can, Graft, Sub, Backups, Hidden, Exists, Next, HasParts;
    var l := d.l;
    var src, dst := LivePath(l, k), l.Staging() + PartPath(k);
    ghost var m0 := d.Now();
    ghost var to := d.mark.(pc := Copying(prev, got + [Sub(d.fs, src)]));
    TickCan(l, m0);
    ok := d.Attempt();
    ghost var m1 := d.Now();
    if !ok { return; }
    ExistsIs(d.fs, src);
    if !Exists(d.fs, src) {
      CopyCan(l, m1, prev, got, m1.(mark := to));
      d.Advance(to);
      NothingAdded(l, d.fs, got);
      return;
    }
    StagingHidden(l, PartPath(k));
    HiddenKeepsStore(l, m1, dst, Sub(m1.fs, src));
    CopyCan(l, m1, prev, got, After(l, m1, dst, Sub(m1.fs, src)).(mark := to));
    HiddenCan(l, m1, dst);
    ok := d.Copy(src, dst, to);
    HiddenKeepsStore(l, m1, dst, if ok then Sub(m1.fs, src) else d.faults(m1.clock).debris);
    if ok {
      PartAdded(l, m1, got, Sub(m1.fs, src));
    }
  }

  lemma NothingAdded(l: Layout, fs: Tree, got: seq<Tree>)
    requires HasParts(l, fs, got) && |got| < PARTS
    ensures HasParts(l, fs, got + [map[]])
  {
    hide Sub;
  }

  lemma StagedBackup(l: Layout, fs: Tree, prev: LastBoot, got: seq<Tree>, mtime: nat)
    requires HasParts(l, fs, got) && |got| == PARTS && Sub(fs, l.Staging() + META) == Leaf(BootRecord(prev))
    ensures BackupIn(Sub(fs, l.Staging()), mtime) == Backup(Some(prev), got, mtime)
    ensures Sub(fs, l.Staging()) != map[]
  {
    hide Sub;
    SubOfSub(fs, l.Staging(), META);
    InSub(Sub(fs, l.Staging()), META, []);
    forall j: nat | j < PARTS ensures Content(Sub(fs, l.Staging()))[j] == got[j] {
      SubOfSub(fs, l.Staging(), PartPath(j));
    }
    assert Content(Sub(fs, l.Staging())) == got;
  }

  lemma FinalPath(l: Layout, n: string)
    ensures Under(l.BackupsDir(), l.BackupsDir() + [n]) && |l.BackupsDir() + [n]| == |l.BackupsDir()| + 1
    ensures (l.BackupsDir() + [n])[|l.BackupsDir()|] == n
  {
    UnderSelf(l.BackupsDir(), [n]);
  }

  /** The rename adds exactly the staged backup, dated by its last write. */
  lemma RevealStore(l: Layout, m: Moment, n: string)
    requires WellFormed(l) && Listable(n) && Sub(m.fs, l.Staging()) != map[]
    ensures var s := View(l, m).store;
            View(l, Renamed(l, m, l.Staging(), l.BackupsDir() + [n])).store ==
            s.(backups := s.backups[n := BackupIn(Sub(m.fs, l.Staging()), Mtime(m.mtimes, ".staging"))], clock := m.clock + 1)
  {
    hide Sub, Graft, Backups, Live, Exists;
    var p, t := l.Staging(), Sub(m.fs, l.Staging());
    FinalPath(l, n);
    FinalPath(l, ".staging");
    StagingHidden(l, []);
    assert p + [] == p;
    HiddenKeepsStore(l, m, p, map[]);
    var m1 := After(l, m, p, map[]);
    var m2 := m1.(mtimes := m.mtimes, clock := m.clock);
    ListableIsVisible(n);
    forall k | Listable(k) ensures Mtime(m2.mtimes, k) == Mtime(m1.mtimes, k) {
      ListableIsVisible(k);
    }
    SameBackupsWhen(Sub(m1.fs, l.BackupsDir()), m1.mtimes, Sub(m1.fs, l.BackupsDir()), m2.mtimes);
    EntryStore(l, m2, n, t, m.mtimes[n := Mtime(m.mtimes, ".staging")]);
  }

  lemma RevealCan(l: Layout, m: Moment, prev: LastBoot, got: seq<Tree>, to: Mark)
    requires WellFormed(l) && GoodBootID(prev.bootID)
    requires m.mark.pc == Copying(prev, got) && |got| == PARTS && HasParts(l, m.fs, got)
    requires Sub(m.fs, l.Staging() + META) == Leaf(BootRecord(prev))
    requires Mtime(m.mtimes, ".staging") < m.clock
    requires forall k | k in View(l, m).store.backups :: View(l, m).store.backups[k].mtime < Mtime(m.mtimes, ".staging")
    requires to == Gating(m.mark, prev)
    ensures Can(l, m, Renamed(l, m, l.Staging(), l.BackupsDir() + [Name(prev)]).(mark := to))
    ensures View(l, Renamed(l, m, l.Staging(), l.BackupsDir() + [Name(prev)])).store ==
            View(l, m).store.(backups := View(l, m).store.backups[Name(prev) := Backup(Some(prev), got, Mtime(m.mtimes, ".staging"))],
                              clock := m.clock + 1)
  {
    hide Sub, Graft, Backups, Live, Exists, HasParts, Renamed;
    NameListable(prev);
    StagedBackup(l, m.fs, prev, got, Mtime(m.mtimes, ".staging"));
    RevealStore(l, m, Name(prev));
    var m' := Renamed(l, m, l.Staging(), l.BackupsDir() + [Name(prev)]).(mark := to);
    assert View(l, m').store == View(l, Renamed(l, m, l.Staging(), l.BackupsDir() + [Name(prev)])).store;
    assert Protocol.Reveal(View(l, m), View(l, m'));
  }

  /** The process and history once the snapshot of `prev` is in place. */
  function Gating(mark: Mark, prev: LastBoot): Mark {
    mark.(pc := Gated,
          hist := mark.hist.(suspect := if mark.hist.tainted then mark.hist.suspect + {Name(prev)} else mark.hist.suspect))
  }

  lemma FinalDir(l: Layout, m: Moment, n: string)
    requires Listable(n)
    ensures n in View(l, m).store.backups <==> Exists(m.fs, l.BackupsDir() + [n])
  {
    hide Sub, Backups;
    BackupsAt(Sub(m.fs, l.BackupsDir()), m.mtimes, n);
    SubOfSub(m.fs, l.BackupsDir(), [n]);
  }

  /** Create: the live trees, part by part, then the metadata, into staging; the
      rename reveals them under the final name. A final name that is already there
      is left alone. On an error, an empty id among them, no backup has appeared or
      changed. */
  method Create(d: Disk, prev: LastBoot) returns (ok: bool)
    requires d.Valid() && d.mark.pc.Checked? && Inv(d.State())
    requires d.State().store.lastBoot == Some(prev)
    requires prev.deploymentID == "" || prev.bootID == "" || SnapshotDue(d.mark.env, Some(prev))
    requires Sub(d.fs, d.l.Staging()) == EMPTY_DIR
    modifies d
    ensures d.Valid() && old(d.log) <= d.log
    ensures (ok ==> d.mark.pc.Gated?) && d.mark.env == old(d.mark.env)
    ensures var s, t := old(d.State()).store, d.State().store;
            t == s.(backups := t.backups, clock := t.clock) && s.clock <= t.clock
    ensures var s, t, n := old(d.State()).store, d.State().store, Name(prev);
            if !ok || n in s.backups then t.backups == s.backups
            else n in t.backups && t.backups == s.backups[n := Backup(Some(prev), s.live, t.backups[n].mtime)]
    ensures old(d.clock) <= d.clock && (!ok ==> prev.deploymentID == "" || prev.bootID == "" || Faulty(d.faults, old(d.clock), d.clock))
  {
    hide Can, Graft, Sub, Backups, Hidden, Exists, Next, HasParts, Live;
    var l := d.l;
    if prev.deploymentID == "" || prev.bootID == "" { return false; }
    var final := l.BackupsDir() + [Name(prev)];
    TickCan(l, d.Now());
    ok := d.Attempt();
    if !ok { return; }
    NameListable(prev);
    FinalDir(l, d.Now(), Name(prev));
    if Exists(d.fs, final) {
      SnapshotExistsCan(l, d.Now(), prev);
      d.Advance(d.mark.(pc := Gated));
      return;
    }
    CopyBeginsCan(l, d.Now(), prev);
    d.Advance(d.mark.(pc := Copying(prev, [])));
    EmptyHasNoParts(l, d.fs);
    ok := StageParts(d, prev);
    if !ok { return; }
    ok := RevealStaged(d, prev);
  }

  lemma SnapshotExistsCan(l: Layout, m: Moment, prev: LastBoot)
    requires m.mark.pc.Checked? && View(l, m).store.lastBoot == Some(prev) && SnapshotDue(m.mark.env, Some(prev))
    requires Name(prev) in View(l, m).store.backups
    ensures Can(l, m, m.(mark := m.mark.(pc := Gated)))
  {
    hide Sub, Backups, Live;
    assert SnapshotExists(View(l, m), View(l, m.(mark := m.mark.(pc := Gated))));
  }

  lemma CopyBeginsCan(l: Layout, m: Moment, prev: LastBoot)
    requires m.mark.pc.Checked? && View(l, m).store.lastBoot == Some(prev) && SnapshotDue(m.mark.env, Some(prev))
    requires Name(prev) !in View(l, m).store.backups
    ensures Can(l, m, m.(mark := m.mark.(pc := Copying(prev, []))))
  {
    hide Sub, Backups, Live;
    assert CopyBegins(View(l, m), View(l, m.(mark := m.mark.(pc := Copying(prev, [])))));
  }

  /** Every part copied; only staging and the clock have changed. */
  method StageParts(d: Disk, ghost prev: LastBoot) returns (ok: bool)
    requires d.Valid() && d.mark.pc == Copying(prev, []) && HasParts(d.l, d.fs, [])
    modifies d
    ensures d.Valid() && old(d.log) <= d.log && Later(old(d.State()), d.State())
    ensures d.State() == old(d.State()).(store := old(d.State().store).(clock := d.clock), pc := d.mark.pc)
    ensures ok ==> d.mark.pc == Copying(prev, old(d.State().store.live)) && HasParts(d.l, d.fs, old(d.State().store.live))
    ensures old(d.clock) <= d.clock && (!ok ==> Faulty(d.faults, old(d.clock), d.clock))
  {
    hide Can, Graft, Sub, Backups, Hidden, Exists, Next, HasParts;
    ghost var live := d.State().store.live;
    ghost var s := d.State();
    ghost var got: seq<Tree> := [];
    assert live[..0] == got;
    var k := 0;
    ok := true;
    while ok && k < PARTS
      invariant 0 <= k <= PARTS && d.Valid() && old(d.log) <= d.log && Later(s, d.State())
      invariant d.State() == s.(store := s.store.(clock := d.clock), pc := d.mark.pc)
      invariant old(d.clock) <= d.clock && (!ok ==> Faulty(d.faults, old(d.clock), d.clock))
      invariant ok ==> d.mark.pc == Copying(prev, live[..k]) && HasParts(d.l, d.fs, live[..k])
      decreases PARTS - k, ok
    {
      if k == 2 {
        ok := MakeKubeletDir(d, live[..k]);
      }
      if ok {
        ok := CopyIfExists(d, prev, k, live[..k]);
        assert live[..k + 1] == live[..k] + [live[k]];
        k := k + 1;
      }
    }
    assert live[..PARTS] == live;
  }

  method MakeKubeletDir(d: Disk, ghost got: seq<Tree>) returns (ok: bool)
    requires d.Valid() && HasParts(d.l, d.fs, got)
    modifies d
    ensures d.Valid() && old(d.log) <= d.log && d.mark == old(d.mark)
    ensures Tick(old(d.State()), d.State()) && d.State().store.clock == d.clock
    ensures HasParts(d.l, d.fs, got)
    ensures old(d.clock) <= d.clock && (!ok ==> Faulty(d.faults, old(d.clock), d.clock))
  {
    hide Can, Graft, Sub, Backups, Hidden, Exists, Next, HasParts, Live;
    ghost var m := d.Now();
    var p := d.l.Staging() + ["kubelet"];
    StagingHidden(d.l, ["kubelet"]);
    MadeCan(d.l, m, p);
    TickCan(d.l, m);
    KubeletDirHasNoParts(d.l, m, got);
    ok := d.MkdirAll(p);
  }

  /** writeMeta and the final rename. */
  method RevealStaged(d: Disk, prev: LastBoot) returns (ok: bool)
    requires d.Valid() && d.mark.pc.Copying? && d.mark.pc.prev == prev && |d.mark.pc.got| == PARTS
    requires HasParts(d.l, d.fs, d.mark.pc.got) && GoodBootID(prev.bootID)
    requires forall n | n in d.State().store.backups :: d.State().store.backups[n].mtime < d.clock
    modifies d
    ensures d.Valid() && old(d.log) <= d.log
    ensures d.mark == if ok then Gating(old(d.mark), prev) else old(d.mark)
    ensures var s, t, n := old(d.State()).store, d.State().store, Name(prev);
            && t == s.(backups := t.backups, clock := d.clock) && s.clock <= d.clock
            && if !ok then t.backups == s.backups
               else n in t.backups && t.backups == s.backups[n := Backup(Some(prev), old(d.mark.pc.got), t.backups[n].mtime)]
    ensures old(d.clock) <= d.clock && (!ok ==> Faulty(d.faults, old(d.clock), d.clock))
  {
    hide Can, Graft, Sub, Backups, Hidden, Exists, Next, HasParts, Live;
    var l := d.l;
    ghost var m0, got := d.Now(), d.mark.pc.got;
    assert d.State() == View(l, m0);
    assert forall n | n in View(l, m0).store.backups :: View(l, m0).store.backups[n].mtime < m0.clock;
    var p := l.Staging() + META;
    StagingHidden(l, META);
    HiddenCan(l, m0, p);
    ok := d.Write(p, Leaf(BootRecord(prev)));
    ghost var m1 := d.Now();
    if !ok { return; }
    HiddenKeepsStore(l, m0, p, Leaf(BootRecord(prev)));
    MetaAdded(l, m0, got, Leaf(BootRecord(prev)));
    StagingTouched(l, m0.mtimes, META, m0.clock);
    TickCan(l, m1);
    RevealCan(l, m1, prev, got, Gating(m1.mark, prev));
    ok := d.Rename(l.Staging(), l.BackupsDir() + [Name(prev)], Gating(d.mark, prev));
  }

  lemma StagingTouched(l: Layout, mtimes: map<string, nat>, x: Path, clock: nat)
    ensures Mtime(Touched(l, mtimes, l.Staging() + x, clock), ".staging") == clock
  {
    UnderSelf(l.BackupsDir(), [".staging"] + x);
    assert l.Staging() + x == l.BackupsDir() + ([".staging"] + x);
    assert (l.Staging() + x)[|l.BackupsDir()|] == ".staging";
  }
}
