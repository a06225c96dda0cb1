/** internal/state's last-boot record, and the restore marker and backup metadata
    of internal/backup. */
module StateFiles {
  import opened Types
  import opened Trees
  import opened Names
  import opened Protocol
  import opened Layouts
  import opened Effects
  import opened Disks
  import opened Moves
  import opened Restore

  /** A single JSON file, if it is there and parses. */
  function ReadRecord(file: Tree): (r: Result<Option<LastBoot>>)
    ensures r.Ok? ==> r.value == RecordIn(file)
    ensures r.Ok? && r.value.None? ==> file == map[]
    ensures r.Err? ==> file != map[] && RecordIn(file).None?
  {
    if file == map[] then Ok(None)
    else if RecordIn(file).Some? then Ok(RecordIn(file))
    else Err
  }

  /** ReadLastBoot. */
  method ReadLastBoot(d: Disk) returns (r: Result<Option<LastBoot>>)
    requires d.Valid()
    modifies d
    ensures d.Valid() && old(d.log) <= d.log && d.mark == old(d.mark) && d.fs == old(d.fs)
    ensures Tick(old(d.State()), d.State())
    ensures r.Ok? ==> r.value == d.State().store.lastBoot
    ensures r.Ok? && r.value.None? ==> !Exists(d.fs, d.l.LastBootFile())
    ensures r.Err? ==> Faulty(d.faults, old(d.clock), d.clock)
                        || (Exists(d.fs, d.l.LastBootFile()) && d.State().store.lastBoot.None?)
    ensures old(d.clock) <= d.clock
  {
    hide Can, Sub, Backups, Live, Exists, RecordIn;
    TickCan(d.l, d.Now());
    ViewTicked(d.l, d.Now(), Ticked(d.Now()));
    var ok := d.Attempt();
    if !ok { return Err; }
    r := ReadRecord(Sub(d.fs, d.l.LastBootFile()));
    ExistsIs(d.fs, d.l.LastBootFile());
  }

  /** ReadMeta. */
  method ReadMeta(d: Disk, name: string) returns (r: Result<LastBoot>)
    requires d.Valid() && name in d.State().store.backups
    modifies d
    ensures d.Valid() && old(d.log) <= d.log && d.mark == old(d.mark) && d.fs == old(d.fs)
    ensures Tick(old(d.State()), d.State())
    ensures r.Ok? ==> d.State().store.backups[name].meta == Some(r.value)
    ensures d.State().store.backups[name].meta.Some? && r.Err? ==> Faulty(d.faults, old(d.clock), d.clock)
    ensures old(d.clock) <= d.clock
  {
    hide Can, Sub, Backups, Live, Exists;
    TickCan(d.l, d.Now());
    ViewTicked(d.l, d.Now(), Ticked(d.Now()));
    var ok := d.Attempt();
    if !ok { return Err; }
    BackupOnDisk(d.l, d.Now(), name);
    var file := Sub(d.fs, d.l.BackupsDir() + [name] + META);
    if RecordIn(file).Some? {
      r := Ok(RecordIn(file).value);
    } else {
      r := Err;
    }
  }

  /** Recording `lb` is a step the process may take: the metadata of the backup just
      restored, or the boot just found healthy. */
  ghost predicate MayRecord(s: State, lb: LastBoot, to: Mark) {
    || (s.pc.Restored? && s.pc.name in s.store.backups && s.store.backups[s.pc.name].meta == Some(lb)
        && to == Mark(s.env, Recorded(s.pc.name), s.hist.(tainted := false)))
    || (s.pc.Finishing? && lb.deploymentID == s.env.deployment && lb.bootID == s.env.bootID
        && to == Mark(s.env, Idle, s.hist.(tainted := false)))
  }

  lemma RecordCan(l: Layout, m: Moment, lb: LastBoot, to: Mark, m': Moment)
    requires MayRecord(View(l, m), lb, to) && m'.mark == to
    requires View(l, m').store == View(l, m).store.(lastBoot := Some(lb), clock := m.clock + 1)
    ensures Can(l, m, m')
  {
    hide Sub, Backups, Live, Exists, RecordIn;
    if View(l, m).pc.Restored? {
      assert Record(View(l, m), View(l, m'));
    } else {
      assert Protocol.WriteLastBoot(View(l, m), View(l, m'));
    }
  }

  /** The temporary file `writeAtomic` renames over the record. */
  function TempFile(l: Layout): Path {
    l.StateDir() + [".tmp-record"]
  }

  lemma TempFacts(l: Layout)
    requires WellFormed(l)
    ensures Hidden(l, TempFile(l)) && Apart(TempFile(l), l.Staging()) && Apart(l.LastBootFile(), l.Staging())
    ensures !Under(l.BackupsDir(), TempFile(l))
  {
    UnderSelf(l.StateDir(), [".tmp-record"]);
    assert TempFile(l)[|l.StateDir()|] == ".tmp-record";
    assert ".tmp-record"[0] != "last-boot.json"[0];
    StateApartFromStaging(l, [".tmp-record"]);
    StateApartFromStaging(l, ["last-boot.json"]);
    BackupsApartFromState(l, [], [".tmp-record"]);
    assert l.BackupsDir() + [] == l.BackupsDir();
  }

  lemma RenamedRecord(l: Layout, m: Moment, lb: LastBoot)
    requires WellFormed(l) && Sub(m.fs, TempFile(l)) == Leaf(BootRecord(lb))
    ensures var m' := Renamed(l, m, TempFile(l), l.LastBootFile());
            && View(l, m').store == View(l, m).store.(lastBoot := Some(lb), clock := m.clock + 1)
            && Sub(m'.fs, l.Staging()) == Sub(m.fs, l.Staging())
  {
    hide Sub, Graft, Backups, Live, Exists, Hidden;
    TempFacts(l);
    var p, t := TempFile(l), Leaf(BootRecord(lb));
    var m1 := After(l, m, p, map[]);
    HiddenKeepsStore(l, m, p, map[]);
    LastBootStore(l, m1, t);
    BackupsApartFromState(l, [], ["last-boot.json"]);
    assert l.BackupsDir() + [] == l.BackupsDir();
    var m2 := After(l, m1, l.LastBootFile(), t);
    StoreClock(l, m2.fs, m.mtimes, m.clock + 2, m.clock + 1);
    SubGraftApart(m.fs, p, map[], l.Staging());
    SubGraftApart(m1.fs, l.LastBootFile(), t, l.Staging());
  }

  /** WriteLastBoot: readers see the old record or the new one. */
  method WriteLastBoot(d: Disk, lb: LastBoot, ghost to: Mark) returns (ok: bool)
    requires d.Valid() && MayRecord(d.State(), lb, to)
    modifies d
    ensures d.Valid() && old(d.log) <= d.log
    ensures Sub(d.fs, d.l.Staging()) == old(Sub(d.fs, d.l.Staging()))
    ensures d.mark == if ok then to else old(d.mark)
    ensures var s := old(d.State()).store;
            && s.clock <= d.clock
            && d.State().store == s.(lastBoot := if ok then Some(lb) else s.lastBoot, clock := d.clock)
    ensures old(d.clock) <= d.clock && (!ok ==> Faulty(d.faults, old(d.clock), d.clock))
  {
    hide Can, Sub, Graft, Backups, Live, Hidden, Exists, RecordIn, Next;
    var l := d.l;
    NotAboveEntry(l, l.StateDir(), ".staging");
    ok := MakeDirectory(d, l.StateDir(), l.Staging());
    if !ok { return; }
    TempFacts(l);
    ghost var m0 := d.Now();
    HiddenCan(l, m0, TempFile(l));
    ok := d.Write(TempFile(l), Leaf(BootRecord(lb)));
    ghost var m1 := d.Now();
    ghost var t := if ok then Leaf(BootRecord(lb)) else d.faults(m0.clock).debris;
    HiddenStays(l, m0, TempFile(l), t, m1, l.Staging());
    SubGraftSame(m0.fs, TempFile(l), t);
    if ok {
      RenamedRecord(l, m1, lb);
      RecordCan(l, m1, lb, to, Renamed(l, m1, TempFile(l), l.LastBootFile()).(mark := to));
      TickCan(l, m1);
      ok := d.Rename(TempFile(l), l.LastBootFile(), to);
    }
    RemoveTemp(d);
  }

  /** The deferred removal of the temporary file. */
  method RemoveTemp(d: Disk)
    requires d.Valid()
    modifies d
    ensures d.Valid() && old(d.log) <= d.log && d.mark == old(d.mark)
    ensures Sub(d.fs, d.l.Staging()) == old(Sub(d.fs, d.l.Staging()))
    ensures Tick(old(d.State()), d.State()) && d.State().store.clock == d.clock
    ensures old(d.clock) <= d.clock
  {
    hide Can, Sub, Graft, Backups, Live, Hidden, Exists, RecordIn;
    TempFacts(d.l);
    ghost var m := d.Now();
    HiddenCan(d.l, m, TempFile(d.l));
    TickCan(d.l, m);
    var ok := d.Remove(TempFile(d.l), d.mark);
    if ok {
      HiddenStays(d.l, m, TempFile(d.l), map[], d.Now(), d.l.Staging());
    }
  }

  lemma MarkerFacts(l: Layout, m: Moment)
    requires WellFormed(l)
    ensures Sub(After(l, m, l.RestoreMarker(), map[]).fs, l.Staging()) == Sub(m.fs, l.Staging())
  {
    EntryApartFromStaging(l, "restore", []);
    assert l.BackupsDir() + ["restore"] + [] == l.RestoreMarker();
    SubGraftApart(m.fs, l.RestoreMarker(), map[], l.Staging());
  }

  /** The process may leave `maybeRestore` for `to` with the marker gone, or kept
      because clearing it failed. */
  ghost predicate MayClear(s: State, to: Mark) {
    || (s.pc.Booting? && s.env.ostree && s.store.marker && (s.env.deployment == "" || !BackedUp(s.store, s.env.deployment))
        && to == Mark(s.env, Checked, s.hist))
    || (s.pc.Recorded? && to == Mark(s.env, Checked, s.hist))
    || ((s.pc.Booting? || s.pc.Restoring? || s.pc.Restored?) && to == Mark(s.env, Idle, s.hist))
  }

  lemma ClearCan(l: Layout, m: Moment, to: Mark, m': Moment)
    requires MayClear(View(l, m), to) && m'.mark == to && m.clock <= m'.clock
    requires m.clock < m'.clock || m.fs == m'.fs
    requires View(l, m').store == View(l, m).store.(marker := View(l, m').store.marker, clock := m'.clock)
    requires View(l, m').store.marker ==> View(l, m).store.marker
    ensures Can(l, m, m')
  {
    hide Sub, Backups, Live, Exists, RecordIn;
    var s, t := View(l, m), View(l, m');
    if s.pc.Recorded? {
      assert Protocol.ClearMarker(s, t);
    } else if to.pc.Checked? {
      assert NothingToRestore(s, t);
    } else {
      assert GiveUp(s, t);
    }
  }

  /** ClearRestoreMarker, deferred: a failure is only logged. */
  method ClearRestoreMarker(d: Disk, ghost to: Mark)
    requires d.Valid() && MayClear(d.State(), to)
    modifies d
    ensures d.Valid() && old(d.log) <= d.log && d.mark == to
    ensures Sub(d.fs, d.l.Staging()) == old(Sub(d.fs, d.l.Staging()))
    ensures var s, t := old(d.State()).store, d.State().store;
            t == s.(marker := t.marker, clock := t.clock) && s.clock <= t.clock
    ensures old(d.clock) <= d.clock && (d.State().store.marker ==> !old(d.State()).store.marker || Faulty(d.faults, old(d.clock), d.clock))
  {
    hide Can, Sub, Graft, Backups, Live, RecordIn, Next;
    ghost var m := d.Now();
    MarkerStore(d.l, m);
    MarkerFacts(d.l, m);
    ClearCan(d.l, m, to, After(d.l, m, d.l.RestoreMarker(), map[]).(mark := to));
    TickCan(d.l, m);
    var ok := d.Remove(d.l.RestoreMarker(), to);
    if !ok {
      ClearCan(d.l, d.Now(), to, d.Now().(mark := to));
      d.Advance(to);
    }
  }
}
