/** internal/backup, the restore half: `Restore` puts a backup back part by part,
    each part staged beside its target and moved into place in one step. */
module Restore {
  import opened Types
  import opened Trees
  import opened Names
  import opened Protocol
  import opened Layouts
  import opened Effects
  import opened Disks
  import opened Moves
  import opened Swap

  /** Between `s` and `t` only live part `i` and the process may have moved; on
      success the part is the backup's. */
  ghost predicate PartRestored(s: State, t: State, name: string, i: nat, ok: bool)
    requires name in s.store.backups && |s.store.backups[name].content| == PARTS && i < PARTS == |s.store.live|
  {
    && t == s.(store := s.store.(live := t.store.live, clock := t.store.clock), pc := t.pc)
    && Later(s, t) && t.pc.Restoring? && t.pc.name == name
    && (ok ==> t.pc == Restoring(name, i + 1) && t.store.live == s.store.live[i := s.store.backups[name].content[i]])
  }

  /** Replacing part `i` by the backup's is the step `RestorePart`. */
  lemma PartCan(l: Layout, m: Moment, name: string, i: nat, m': Moment)
    requires i < PARTS && m.mark.pc == Restoring(name, i) && name in View(l, m).store.backups
    requires var s := View(l, m).store;
             View(l, m').store == s.(live := s.live[i := s.backups[name].content[i]], clock := m.clock + 1)
    requires m'.mark == m.mark.(pc := Restoring(name, i + 1))
    ensures Can(l, m, m')
  {
    hide StoreOf;
    ViewShape(l, m);
    ViewShape(l, m');
    BackupShape(l, m, name);
    assert RestorePart(View(l, m), View(l, m'));
  }

  lemma ViewShape(l: Layout, m: Moment)
    ensures View(l, m).store.clock == m.clock && |View(l, m).store.live| == PARTS
  {}

  lemma BackupShape(l: Layout, m: Moment, name: string)
    requires name in View(l, m).store.backups
    ensures |View(l, m).store.backups[name].content| == PARTS
  {
    BackupOnDisk(l, m, name);
  }

  /** Removing part `i`, when the backup does not cover it, at any point. */
  lemma RemovePartCan(l: Layout, m: Moment, name: string, i: nat)
    requires WellFormed(l) && i < PARTS && m.mark.pc == Restoring(name, i) && name in View(l, m).store.backups
    requires |View(l, m).store.backups[name].content| == PARTS && View(l, m).store.backups[name].content[i] == map[]
    ensures Can(l, m, After(l, m, LivePath(l, i), map[]).(mark := m.mark.(pc := Restoring(name, i + 1))))
    ensures forall t: Tree | t.Items <= Sub(m.fs, LivePath(l, i)).Items :: Can(l, m, After(l, m, LivePath(l, i), t))
  {
    hide Sub, Graft, Backups, Exists;
    LivePartStore(l, m, i, map[]);
    PartCan(l, m, name, i, After(l, m, LivePath(l, i), map[]).(mark := m.mark.(pc := Restoring(name, i + 1))));
    forall t: Tree | t.Items <= Sub(m.fs, LivePath(l, i)).Items ensures Can(l, m, After(l, m, LivePath(l, i), t)) {
      LivePartStore(l, m, i, t);
      assert RestoreTorn(View(l, m), View(l, After(l, m, LivePath(l, i), t)));
    }
  }

  /** Moving the staged part into place, by exchange or by rename. */
  lemma SwapPartCan(l: Layout, m: Moment, name: string, i: nat, x: Tree)
    requires WellFormed(l) && i < PARTS && m.mark.pc == Restoring(name, i) && name in View(l, m).store.backups
    requires |View(l, m).store.backups[name].content| == PARTS
    requires Sub(m.fs, Staged(l, i)) == View(l, m).store.backups[name].content[i]
    ensures var fs := Graft(Graft(m.fs, Staged(l, i), x), LivePath(l, i), Sub(m.fs, Staged(l, i)));
            Can(l, m, m.(fs := fs, clock := m.clock + 1, mark := m.mark.(pc := Restoring(name, i + 1))))
  {
    hide Sub, Graft, Backups, Exists, StoreOf, Can;
    var y := Sub(m.fs, Staged(l, i));
    var fs := Graft(Graft(m.fs, Staged(l, i), x), LivePath(l, i), y);
    StagingIsOutside(l);
    SwapStore(l, m, i, x, y, l.Staging());
    PartCan(l, m, name, i, m.(fs := fs, clock := m.clock + 1, mark := m.mark.(pc := Restoring(name, i + 1))));
  }

  /** Stages `src` beside live part `i`; on an error the staged copy is dropped. */
  method StagePart(d: Disk, src: Path, i: nat, ghost q: Path) returns (ok: bool)
    requires d.Valid() && Outside(d.l, q) && i < PARTS && Under(d.l.BackupsDir(), src)
    modifies d
    ensures d.Valid() && old(d.log) <= d.log && d.mark == old(d.mark)
    ensures Sub(d.fs, q) == old(Sub(d.fs, q))
    ensures Tick(old(d.State()), d.State())
    ensures ok ==> Sub(d.fs, Staged(d.l, i)) == old(Sub(d.fs, src))
    ensures old(d.clock) <= d.clock && (!ok ==> Faulty(d.faults, old(d.clock), d.clock))
  {
    hide Can, Sub, Graft, StoreOf, Hidden, Exists, Next;
    var l := d.l;
    var staged := Staged(l, i);
    StagedFacts(l, i);
    ghost var m1 := d.Now();
    HiddenCan(l, m1, staged);
    ok := d.RemoveAll(staged, d.mark);
    ghost var m2 := d.Now();
    HiddenStays(l, m1, staged, if ok then map[] else Kept(Sub(m1.fs, staged), d.faults(m1.clock).kept), m2, q);
    if !ok { return; }
    VaultApart(l, staged, src);
    SubGraftApart(m1.fs, staged, map[], src);
    HiddenCan(l, m2, staged);
    ok := d.Copy(src, staged, d.mark);
    ghost var m3 := d.Now();
    ghost var t3 := if ok then Sub(m2.fs, src) else d.faults(m2.clock).debris;
    HiddenStays(l, m2, staged, t3, m3, q);
    SubGraftSame(m2.fs, staged, t3);
    if !ok {
      var _ := DropStaged(d, i, q);
    }
  }

  lemma VaultApart(l: Layout, p: Path, src: Path)
    requires Apart(p, l.BackupsDir()) && Under(l.BackupsDir(), src)
    ensures Apart(p, src)
  {
    var r := Split(l.BackupsDir(), src);
    ApartBelow(p, l.BackupsDir(), r);
  }

  /** The uncovered part: the live tree is wiped to keep restore total. */
  method RemovePart(d: Disk, name: string, i: nat, ghost q: Path) returns (ok: bool)
    requires d.Valid() && Outside(d.l, q) && i < PARTS && d.mark.pc == Pc.Restoring(name, i)
    requires name in d.State().store.backups && |d.State().store.backups[name].content| == PARTS
    requires d.State().store.backups[name].content[i] == map[]
    modifies d
    ensures d.Valid() && old(d.log) <= d.log
    ensures Sub(d.fs, q) == old(Sub(d.fs, q))
    ensures PartRestored(old(d.State()), d.State(), name, i, ok)
    ensures old(d.clock) <= d.clock && (!ok ==> Faulty(d.faults, old(d.clock), d.clock))
  {
    hide Can, Sub, Graft, Backups, Live, Exists;
    ghost var m := d.Now();
    var dst := LivePath(d.l, i);
    StagedFacts(d.l, i);
    RemovePartCan(d.l, m, name, i);
    ok := d.RemoveAll(dst, d.mark.(pc := Pc.Restoring(name, i + 1)));
    ghost var t := if ok then map[] else Kept(Sub(m.fs, dst), d.faults(m.clock).kept);
    LivePartStore(d.l, m, i, t);
    SubGraftApart(m.fs, dst, t, q);
  }

  /** restoreDir: etcd and the kubernetes tree. */
  method RestoreDir(d: Disk, name: string, i: nat, ghost q: Path) returns (ok: bool)
    requires d.Valid() && Outside(d.l, q) && i < 2 && d.mark.pc == Pc.Restoring(name, i)
    requires name in d.State().store.backups && |d.State().store.backups[name].content| == PARTS
    modifies d
    ensures d.Valid() && old(d.log) <= d.log
    ensures Sub(d.fs, q) == old(Sub(d.fs, q))
    ensures PartRestored(old(d.State()), d.State(), name, i, ok)
    ensures old(d.clock) <= d.clock && (!ok ==> Faulty(d.faults, old(d.clock), d.clock))
  {
    hide Can, Sub, Graft, StoreOf, Hidden, Exists, Next;
    var l := d.l;
    var src := l.BackupsDir() + [name] + PartPath(i);
    ghost var m0 := d.Now();
    ViewShape(l, m0);
    TickCan(l, m0);
    ok := d.Attempt();
    ViewTicked(l, m0, d.Now());
    if !ok { return; }
    BackupOnDisk(l, d.Now(), name);
    ExistsIs(d.fs, src);
    if !Exists(d.fs, src) {
      ok := RemovePart(d, name, i, q);
      return;
    }
    UnderEntry(l, name, PartPath(i));
    ok := StagePart(d, src, i, q);
    if !ok { return; }
    ok := SwapPart(d, name, i, q);
  }

  /** The exchange, and the displaced tree dropped whether or not it happened. */
  method SwapPart(d: Disk, name: string, i: nat, ghost q: Path) returns (ok: bool)
    requires d.Valid() && Outside(d.l, q) && i < 2 && d.mark.pc == Pc.Restoring(name, i)
    requires name in d.State().store.backups && |d.State().store.backups[name].content| == PARTS
    requires Sub(d.fs, Staged(d.l, i)) == d.State().store.backups[name].content[i]
    modifies d
    ensures d.Valid() && old(d.log) <= d.log
    ensures Sub(d.fs, q) == old(Sub(d.fs, q))
    ensures PartRestored(old(d.State()), d.State(), name, i, ok)
    ensures old(d.clock) <= d.clock && (!ok ==> Faulty(d.faults, old(d.clock), d.clock))
  {
    hide Can, Sub, Graft, StoreOf, Hidden, Exists, Next;
    var l := d.l;
    StagedFacts(l, i);
    ghost var m := d.Now();
    SwapPartCan(l, m, name, i, Sub(m.fs, LivePath(l, i)));
    ghost var to := d.mark.(pc := Pc.Restoring(name, i + 1));
    ok := SwapDir(d, Staged(l, i), LivePath(l, i), to);
    SwappedStore(l, m, i, to, d.Now(), q);
    var dropped := DropStaged(d, i, q);
    ok := ok && dropped;
  }

  lemma UnderEntry(l: Layout, name: string, x: Path)
    ensures Under(l.BackupsDir(), l.BackupsDir() + [name] + x)
  {
    UnderSelf(l.BackupsDir(), [name] + x);
    assert l.BackupsDir() + [name] + x == l.BackupsDir() + ([name] + x);
  }

  /** `_ = os.RemoveAll(staged)`: nothing observed changes. */
  method DropStaged(d: Disk, i: nat, ghost q: Path) returns (ok: bool)
    requires d.Valid() && Outside(d.l, q) && i < PARTS
    modifies d
    ensures d.Valid() && old(d.log) <= d.log && d.mark == old(d.mark)
    ensures Sub(d.fs, q) == old(Sub(d.fs, q))
    ensures Tick(old(d.State()), d.State())
    ensures old(d.clock) <= d.clock && (!ok ==> Faulty(d.faults, old(d.clock), d.clock))
  {
    hide Can, Sub, Graft, StoreOf, Hidden;
    ghost var m := d.Now();
    var staged := Staged(d.l, i);
    StagedFacts(d.l, i);
    HiddenCan(d.l, m, staged);
    ok := d.RemoveAll(staged, d.mark);
    HiddenStays(d.l, m, staged, if ok then map[] else Kept(Sub(m.fs, staged), d.faults(m.clock).kept), d.Now(), q);
  }

  lemma HiddenStays(l: Layout, m: Moment, p: Path, t: Tree, m': Moment, q: Path)
    requires WellFormed(l) && Hidden(l, p) && Apart(p, q) && m' == After(l, m, p, t)
    ensures View(l, m') == View(l, m).(store := View(l, m).store.(clock := m.clock + 1)) && View(l, m).store.clock == m.clock
    ensures |View(l, m).store.live| == PARTS
    ensures Sub(m'.fs, q) == Sub(m.fs, q)
  {
    hide Sub, Graft, Hidden, Backups, Exists;
    HiddenKeepsStore(l, m, p, t);
    SubGraftApart(m.fs, p, t, q);
  }

  /** After `SwapDir` part `i` is what was staged, or nothing has changed. */
  lemma SwappedStore(l: Layout, m: Moment, i: nat, to: Mark, m': Moment, q: Path)
    requires WellFormed(l) && i < 2 && Outside(l, q)
    requires Swapped(m, Staged(l, i), LivePath(l, i), to, m') || m' == Ticked(m)
    ensures Sub(m'.fs, q) == Sub(m.fs, q)
    ensures View(l, m).store.clock == m.clock < m'.clock && |View(l, m).store.live| == PARTS
    ensures var s := View(l, m).store;
            View(l, m').store == s.(live := if Swapped(m, Staged(l, i), LivePath(l, i), to, m') then s.live[i := Sub(m.fs, Staged(l, i))] else s.live,
                                    clock := m'.clock)
  {
    hide Sub, Graft, Backups, Exists;
    var x, y := Sub(m.fs, LivePath(l, i)), Sub(m.fs, Staged(l, i));
    SwapStore(l, m, i, x, y, q);
    var fs := Graft(Graft(m.fs, Staged(l, i), x), LivePath(l, i), y);
    StoreClock(l, fs, m.mtimes, m.clock + 1, m'.clock);
    StoreClock(l, m.fs, m.mtimes, m.clock, m'.clock);
  }

  lemma ExistsIs(t: Tree, p: Path)
    ensures Exists(t, p) <==> Sub(t, p) != map[]
  {}

  lemma ViewTicked(l: Layout, m: Moment, m': Moment)
    requires m' == Ticked(m)
    ensures View(l, m') == View(l, m).(store := View(l, m).store.(clock := m.clock + 1)) && View(l, m).store.clock == m.clock
    ensures |View(l, m).store.live| == PARTS
  {}

  /** replaceFile: a kubelet file, staged beside its target and renamed over it. */
  method ReplaceFile(d: Disk, name: string, i: nat, ghost q: Path) returns (ok: bool)
    requires d.Valid() && Outside(d.l, q) && 2 <= i < PARTS && d.mark.pc == Pc.Restoring(name, i)
    requires name in d.State().store.backups && |d.State().store.backups[name].content| == PARTS
    modifies d
    ensures d.Valid() && old(d.log) <= d.log
    ensures Sub(d.fs, q) == old(Sub(d.fs, q))
    ensures PartRestored(old(d.State()), d.State(), name, i, ok)
    ensures old(d.clock) <= d.clock && (!ok ==> Faulty(d.faults, old(d.clock), d.clock))
  {
    hide Can, Sub, Graft, StoreOf, Hidden, Exists, Next;
    var l := d.l;
    var src := l.BackupsDir() + [name] + PartPath(i);
    ViewShape(l, d.Now());
    ok := MakeDirectory(d, l.kubeletDir, q);
    if !ok { return; }
    BackupOnDisk(l, d.Now(), name);
    UnderEntry(l, name, PartPath(i));
    ok := StagePart(d, src, i, q);
    if !ok { return; }
    ok := RenamePart(d, name, i, q);
  }

  method RenamePart(d: Disk, name: string, i: nat, ghost q: Path) returns (ok: bool)
    requires d.Valid() && Outside(d.l, q) && i < PARTS && d.mark.pc == Pc.Restoring(name, i)
    requires name in d.State().store.backups && |d.State().store.backups[name].content| == PARTS
    requires Sub(d.fs, Staged(d.l, i)) == d.State().store.backups[name].content[i]
    modifies d
    ensures d.Valid() && old(d.log) <= d.log
    ensures Sub(d.fs, q) == old(Sub(d.fs, q))
    ensures PartRestored(old(d.State()), d.State(), name, i, ok)
    ensures old(d.clock) <= d.clock && (!ok ==> Faulty(d.faults, old(d.clock), d.clock))
  {
    hide Can, Sub, Graft, StoreOf, Hidden, Exists, Next;
    ghost var m := d.Now();
    StagedFacts(d.l, i);
    SwapPartCan(d.l, m, name, i, map[]);
    TickCan(d.l, m);
    SwapStore(d.l, m, i, map[], Sub(m.fs, Staged(d.l, i)), q);
    ok := d.Rename(Staged(d.l, i), LivePath(d.l, i), d.mark.(pc := Pc.Restoring(name, i + 1)));
    ViewTicked(d.l, m, Ticked(m));
  }

  /** `os.MkdirAll` of a directory above everything observed, or of a hidden one. */
  method MakeDirectory(d: Disk, p: Path, ghost q: Path) returns (ok: bool)
    requires d.Valid() && !Under(q, p) && Parent(d.l, p)
    modifies d
    ensures d.Valid() && old(d.log) <= d.log && d.mark == old(d.mark)
    ensures Sub(d.fs, q) == old(Sub(d.fs, q))
    ensures Tick(old(d.State()), d.State())
    ensures old(d.clock) <= d.clock && (!ok ==> Faulty(d.faults, old(d.clock), d.clock))
  {
    hide Can, Sub, Graft, StoreOf, Hidden, Mkdir;
    ghost var m := d.Now();
    MadeCan(d.l, m, p);
    TickCan(d.l, m);
    ViewTicked(d.l, m, Ticked(m));
    ok := d.MkdirAll(p);
    if ok && !Exists(m.fs, p) {
      MkdirIsGraft(m.fs, p);
      SubMkdir(m.fs, p, q);
    }
  }

  /** The parts below `k` are the backup's and nothing but the live trees has moved. */
  ghost predicate RestoredTo(s: State, t: State, name: string, k: nat)
    requires name in s.store.backups && |s.store.backups[name].content| == PARTS
  {
    && t == s.(store := s.store.(live := t.store.live, clock := t.store.clock), pc := t.pc)
    && Later(s, t) && |t.store.live| == PARTS && k <= PARTS
    && t.pc == Pc.Restoring(name, k) && t.store.live[..k] == s.store.backups[name].content[..k]
  }

  ghost predicate Interrupted(s: State, t: State, name: string) {
    && t == s.(store := s.store.(live := t.store.live, clock := t.store.clock), pc := t.pc)
    && Later(s, t) && |t.store.live| == PARTS && t.pc.Restoring? && t.pc.name == name
  }

  lemma NextPart(s: State, u: State, t: State, name: string, i: nat, ok: bool)
    requires name in s.store.backups && |s.store.backups[name].content| == PARTS && i < PARTS
    requires RestoredTo(s, u, name, i) && PartRestored(u, t, name, i, ok) && |t.store.live| == PARTS
    ensures if ok then RestoredTo(s, t, name, i + 1) else Interrupted(s, t, name)
  {
    if ok {
      var c := s.store.backups[name].content;
      assert t.store.live[..i + 1] == u.store.live[..i] + [c[i]];
      assert c[..i + 1] == c[..i] + [c[i]];
    }
  }

  /** Restore: on success every covered part is the backup's, whatever was live and
      whatever an earlier attempt left; backups, last-boot and marker are untouched,
      and so is any path `q` outside the covered parts. */
  method Restore(d: Disk, name: string, ghost q: Path) returns (ok: bool)
    requires d.Valid() && Outside(d.l, q) && d.mark.pc == Pc.Restoring(name, 0)
    requires name in d.State().store.backups && |d.State().store.backups[name].content| == PARTS
    modifies d
    ensures d.Valid() && old(d.log) <= d.log
    ensures Sub(d.fs, q) == old(Sub(d.fs, q))
    ensures Interrupted(old(d.State()), d.State(), name)
    ensures ok ==> d.mark.pc == Pc.Restoring(name, PARTS)
                   && d.State().store.live == old(d.State().store.backups[name].content)
    ensures old(d.clock) <= d.clock && (!ok ==> Faulty(d.faults, old(d.clock), d.clock))
  {
    hide Can, Sub, Graft, StoreOf, Hidden, Exists, Next, PartRestored;
    var l := d.l;
    ghost var s := d.State();
    ViewShape(l, d.Now());
    TickCan(l, d.Now());
    ViewTicked(l, d.Now(), Ticked(d.Now()));
    ok := d.Attempt();
    if !ok { return; }
    ghost var u := d.State();
    assert u.store.live[..0] == s.store.backups[name].content[..0];
    var i := 0;
    while ok && i < 2
      invariant 0 <= i <= 2 && d.Valid() && old(d.log) <= d.log
      invariant Sub(d.fs, q) == old(Sub(d.fs, q))
      invariant if ok then RestoredTo(s, d.State(), name, i) else Interrupted(s, d.State(), name)
      invariant old(d.clock) <= d.clock && (!ok ==> Faulty(d.faults, old(d.clock), d.clock))
      decreases 2 - i, ok
    {
      u := d.State();
      ok := RestoreDir(d, name, i, q);
      ViewShape(l, d.Now());
      NextPart(s, u, d.State(), name, i, ok);
      i := if ok then i + 1 else i;
    }
    if !ok { return; }
    ok := MakeDirectory(d, l.kubeletDir, q);
    while ok && i < PARTS
      invariant 2 <= i <= PARTS && d.Valid() && old(d.log) <= d.log
      invariant Sub(d.fs, q) == old(Sub(d.fs, q))
      invariant ok ==> RestoredTo(s, d.State(), name, i)
      invariant Interrupted(s, d.State(), name)
      invariant old(d.clock) <= d.clock && (!ok ==> Faulty(d.faults, old(d.clock), d.clock))
      decreases PARTS - i, ok
    {
      u := d.State();
      ok := RestoreFile(d, name, i, q);
      ViewShape(l, d.Now());
      NextPart(s, u, d.State(), name, i, ok);
      i := if ok then i + 1 else i;
    }
    if ok {
      assert d.State().store.live == d.State().store.live[..PARTS];
      assert s.store.backups[name].content == s.store.backups[name].content[..PARTS];
    }
  }

  /** One kubelet file: removed when the backup lacks it, replaced otherwise. */
  method RestoreFile(d: Disk, name: string, i: nat, ghost q: Path) returns (ok: bool)
    requires d.Valid() && Outside(d.l, q) && 2 <= i < PARTS && d.mark.pc == Pc.Restoring(name, i)
    requires name in d.State().store.backups && |d.State().store.backups[name].content| == PARTS
    modifies d
    ensures d.Valid() && old(d.log) <= d.log
    ensures Sub(d.fs, q) == old(Sub(d.fs, q))
    ensures PartRestored(old(d.State()), d.State(), name, i, ok)
    ensures old(d.clock) <= d.clock && (!ok ==> Faulty(d.faults, old(d.clock), d.clock))
  {
    hide Can, Sub, Graft, StoreOf, Hidden, Exists, Next;
    var src := d.l.BackupsDir() + [name] + PartPath(i);
    ViewShape(d.l, d.Now());
    TickCan(d.l, d.Now());
    ViewTicked(d.l, d.Now(), Ticked(d.Now()));
    ok := d.Attempt();
    if !ok { return; }
    BackupOnDisk(d.l, d.Now(), name);
    ExistsIs(d.fs, src);
    if !Exists(d.fs, src) {
      ok := RemovePart(d, name, i, q);
    } else {
      ok := ReplaceFile(d, name, i, q);
    }
  }
}
