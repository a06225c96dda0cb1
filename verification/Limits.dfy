/** Where the protocol's guarantees end: runs that spoil a snapshot, and why
    removing a backup is taken as one step. */
module Limits {
  import opened Types
  import opened Trees
  import opened Names
  import opened Pki
  import opened Protocol
  import opened Invariant
  import opened Theorems
  import opened Fidelity
  import opened Layouts
  import opened Effects

  lemma Extend(seg: seq<State>, t: State) returns (longer: seq<State>)
    requires |seg| > 0 && Chain(seg) && Next(seg[|seg| - 1], t)
    ensures longer == seg + [t] && Chain(longer) && |longer| > 0 && longer[0] == seg[0] && longer[|longer| - 1] == t
  {
    ChainExtends(seg, t);
    longer := seg + [t];
  }

  /** The state after a due snapshot of `s`. */
  function Snapshotted(s: State): State
    requires s.store.lastBoot.Some?
  {
    var prev := s.store.lastBoot.value;
    s.(store := s.store.(backups := s.store.backups[Name(prev) := Backup(Some(prev), s.store.live, s.store.clock)],
                         clock := s.store.clock + 1),
       pc := Gated,
       hist := s.hist.(suspect := if s.hist.tainted then s.hist.suspect + {Name(prev)} else s.hist.suspect))
  }

  lemma TakeSnapshot(run: seq<State>) returns (longer: seq<State>)
    requires |run| > 0 && Chain(run)
    requires var s := run[|run| - 1];
             s.pc.Checked? && |s.store.live| == PARTS && SnapshotDue(s.env, s.store.lastBoot)
             && Name(s.store.lastBoot.value) !in s.store.backups
             && forall n | n in s.store.backups :: s.store.backups[n].mtime < s.store.clock
    ensures |longer| > |run| && longer[0] == run[0] && Chain(longer) && run <= longer
    ensures forall i | |run| <= i < |longer| - 1 :: longer[i].store == run[|run| - 1].store
    ensures Reveal(longer[|longer| - 2], longer[|longer| - 1]) && longer[|longer| - 2].pc.prev == run[|run| - 1].store.lastBoot.value
    ensures longer[|longer| - 1] == Snapshotted(run[|run| - 1])
  {
    var s := run[|run| - 1];
    var prev := s.store.lastBoot.value;
    longer := Extend(run, s.To(Copying(prev, [])));
    var k := 0;
    while k < PARTS
      invariant 0 <= k <= PARTS && |longer| > |run| && run <= longer && Chain(longer)
      invariant longer[|longer| - 1] == s.To(Copying(prev, s.store.live[..k]))
      invariant forall i | |run| <= i < |longer| :: longer[i].store == s.store
    {
      assert s.store.live[..k + 1] == s.store.live[..k] + [s.store.live[k]];
      var z, z' := s.To(Copying(prev, s.store.live[..k])), s.To(Copying(prev, s.store.live[..k + 1]));
      assert CopyPart(z, z');
      longer := Extend(longer, z');
      k := k + 1;
    }
    assert s.store.live[..PARTS] == s.store.live;
    assert Reveal(longer[|longer| - 1], Snapshotted(s));
    longer := Extend(longer, Snapshotted(s));
  }

  /** The node as `initialize.Run` leaves it in boot "1" of deployment "A". */
  function Initialised(x: seq<Tree>): State {
    State(Env(true, "A", "1", {"A", "B"}, {"1"}, true),
          Store(x, map[], Some(LastBoot("v", "A", "1")), false, 0), Idle, History(map[], false, {}))
  }

  function Rebooted(s: State, d: string, b: string): State {
    s.(env := Env(s.env.ostree, d, b, s.env.known, s.env.used + {b}, false), pc := Idle,
       hist := s.hist.(left := s.hist.left[s.env.bootID := s.store.live]))
  }

  lemma BootUnmarked(run: seq<State>, d: string, b: string) returns (longer: seq<State>)
    requires |run| > 0 && Chain(run)
    requires var s := run[|run| - 1];
             b !in s.env.used && GoodBootID(b) && '_' !in d && s.env.ostree && d in s.env.known && !s.store.marker
             && |s.store.live| == PARTS && HasCAs(s.store.live[KUBERNETES])
    ensures |longer| > 0 && longer[0] == run[0] && Chain(longer) && run <= longer
    ensures longer[|longer| - 1] == Rebooted(run[|run| - 1], d, b).To(Checked)
    ensures forall i | |run| <= i < |longer| :: longer[i].store == run[|run| - 1].store
  {
    var s := run[|run| - 1];
    var s1 := Rebooted(s, d, b);
    assert Reboot(s, s1);
    longer := Extend(run, s1);
    assert Begin(s1, s1.To(Booting)) && NoRestore(s1.To(Booting), s1.To(Checked));
    longer := Extend(longer, s1.To(Booting));
    longer := Extend(longer, s1.To(Checked));
  }

  /** Another deployment that reconciles and fails, then a return without a restore:
      the snapshot named after the first deployment's boot holds the other's data.
      Any two contents `x` (what the boot left) and `y` that a node can boot with can
      be confused this way. */
  lemma FailedUpgradeSpoilsSnapshot(x: seq<Tree>, y: seq<Tree>) returns (run: seq<State>)
    requires |x| == |y| == PARTS && HasCAs(x[KUBERNETES]) && Guarded(x[KUBERNETES], y[KUBERNETES])
    ensures Run(run)
    ensures var s := run[|run| - 1];
            "A_1" in s.store.backups && s.store.backups["A_1"].content == y
            && "1" in s.hist.left && s.hist.left["1"] == x && "A_1" in s.hist.suspect
  {
    hide HasCAs, NoSuperAdmin;
    run := [Initialised(x)];
    run := BootUnmarked(run, "B", "2");
    var s := run[|run| - 1];
    var s1 := s.(pc := Gated, hist := s.hist.(tainted := true));
    assert SnapshotSkipped(s, s1);
    run := Extend(run, s1);
    var s2 := s1.Live(y, 0);
    assert Reconcile(s1, s2);
    run := Extend(run, s2);
    run := BootUnmarked(run, "A", "3");
    assert Name(LastBoot("v", "A", "1")) == "A_1";
    run := TakeSnapshot(run);
  }

  // ---- what a boot over unsaved trees can lead to ----

  /** `seg` ends with a snapshot under the name that last-boot has had all along, and it
      holds `y`; the backup of that name, had there been one, was never removed. */
  ghost predicate Saves(seg: seq<State>, y: seq<Tree>) {
    && |seg| > 1 && Chain(seg) && seg[0].store.lastBoot.Some?
    && var k, n := |seg| - 2, Name(seg[0].store.lastBoot.value);
    && Reveal(seg[k], seg[k + 1]) && n in seg[k + 1].store.backups && seg[k + 1].store.backups[n].content == y
    && (forall i | 0 <= i <= k :: seg[i].store.lastBoot == seg[0].store.lastBoot)
    && (n in seg[0].store.backups ==> forall i | 0 <= i <= k :: n in seg[i].store.backups)
  }

  /** The marker, if it is there, goes with an attempt that fails before it begins. */
  lemma DropMarker(run: seq<State>) returns (longer: seq<State>)
    requires |run| > 0 && Chain(run) && run[|run| - 1].pc.Idle?
    requires var s := run[|run| - 1]; |s.store.live| == PARTS && HasCAs(s.store.live[KUBERNETES])
    ensures run <= longer && Chain(longer) && |longer| > 0
    ensures var s := run[|run| - 1]; longer[|longer| - 1] == s.(store := s.store.(marker := false))
    ensures forall i | |run| <= i < |longer| :: longer[i].store == run[|run| - 1].store.(marker := longer[i].store.marker)
  {
    hide HasCAs;
    var s := run[|run| - 1];
    var t := s.(store := s.store.(marker := false));
    assert Begin(s, s.To(Booting)) && GiveUp(s.To(Booting), t);
    longer := Extend(run, s.To(Booting));
    longer := Extend(longer, t);
  }

  /** From a boot that went on over unsaved trees: it reconciles, the host returns to the
      deployment last-boot names, and the snapshot taken there holds what the failed
      boot wrote, whatever that was. */
  lemma SkipSpoils(s: State, y: seq<Tree>, b: string) returns (seg: seq<State>)
    requires Inv(s) && s.pc.Gated? && s.env.ostree && Unsaved(s) && s.store.lastBoot.value.bootID != s.env.bootID
    requires |y| == PARTS && HasCAs(y[KUBERNETES]) && Guarded(s.store.live[KUBERNETES], y[KUBERNETES])
    requires b !in s.env.used && GoodBootID(b)
    ensures |seg| > 0 && seg[0] == s && Saves(seg, y)
  {
    hide HasCAs, NoSuperAdmin, Guarded, DeployOf, Faithful, Pristine, Quiescent, BaselineNewest;
    var d := s.store.lastBoot.value.deploymentID;
    var s1 := s.Live(y, s.store.clock);
    assert Reconcile(s, s1);
    seg := Extend([s], s1);
    var s2 := s1.(env := s1.env.(known := s1.env.known + {d}));
    assert DeploymentsChange(s1, s2);
    seg := Extend(seg, s2);
    var s3 := s2.To(Idle);
    assert Die(s2, s3);
    seg := Extend(seg, s3);
    ghost var start := seg;
    seg := DropMarker(seg);
    assert forall i | 0 <= i < |seg| :: seg[i].store.lastBoot == s.store.lastBoot && seg[i].store.backups == s.store.backups;
    var before := seg;
    seg := BootUnmarked(seg, d, b);
    assert forall i | 0 <= i < |seg| :: seg[i].store.lastBoot == s.store.lastBoot && seg[i].store.backups == s.store.backups;
    BeforeNow(s);
    var after := seg;
    seg := TakeSnapshot(seg);
    forall i | 0 <= i < |seg| - 1 ensures seg[i].store.lastBoot == s.store.lastBoot {
      if i < |after| { assert seg[i] == after[i]; }
    }
  }

  /** Exactly then: when the gate has let a boot pass over the record of an earlier one,
      a snapshot of `y` can come to be taken under that record's name, the record and a
      backup of it staying, if and only if the record has a deployment and no backup. */
  lemma SkipSpoilsExactly(s: State, y: seq<Tree>, b: string)
    requires Inv(s) && s.pc.Gated? && s.env.ostree
    requires s.store.lastBoot.Some? && s.store.lastBoot.value.bootID != s.env.bootID
    requires |y| == PARTS && HasCAs(y[KUBERNETES]) && Guarded(s.store.live[KUBERNETES], y[KUBERNETES])
    requires b !in s.env.used && GoodBootID(b)
    ensures Unsaved(s) <==> exists seg :: |seg| > 0 && seg[0] == s && Saves(seg, y)
  {
    hide HasCAs, NoSuperAdmin, Guarded, DeployOf, Inv, Saves;
    if Unsaved(s) {
      var seg := SkipSpoils(s, y, b);
    }
    if seg :| |seg| > 0 && seg[0] == s && Saves(seg, y) {
      SavedIsUnsaved(seg, y);
    }
  }

  lemma SavedIsUnsaved(seg: seq<State>, y: seq<Tree>)
    requires |seg| > 0 && Inv(seg[0]) && Saves(seg, y)
    ensures Unsaved(seg[0])
  {
    hide Next, DeployOf, Inv;
    ChainInv(seg, |seg| - 2);
    CopiesUnsaved(seg[|seg| - 2]);
  }

  lemma CopiesUnsaved(s: State)
    requires Inv(s) && s.pc.Copying?
    ensures Unsaved(s)
  {
    hide DeployOf, Name, Faithful, Pristine, Quiescent, BaselineNewest, BackupsOk, SkipTaints;
  }

  /** A restore that returns an error drops the marker, so the half-restored trees
      pass for what the previous boot left: with one part of backup "A_1" back in
      place, boot "4" snapshots the mixture as "A_2". */
  lemma FailedRestoreSpoilsSnapshot(x: seq<Tree>, y: seq<Tree>) returns (run: seq<State>)
    requires |x| == |y| == PARTS && HasCAs(x[KUBERNETES]) && HasCAs(y[KUBERNETES])
    ensures Run(run)
    ensures var s := run[|run| - 1];
            "A_2" in s.store.backups && s.store.backups["A_2"].content == y[0 := x[0]]
            && "2" in s.hist.left && s.hist.left["2"] == y && "A_2" in s.hist.suspect
  {
    hide HasCAs, NoSuperAdmin;
    run := [Initialised(x)];
    run := BootUnmarked(run, "A", "2");
    assert Name(LastBoot("v", "A", "1")) == "A_1";
    run := TakeSnapshot(run);
    run := HealthyTail(run, y);
    run := RestoreFailsAfterEtcd(run, x);
    run := BootUnmarked(run, "A", "4");
    assert Name(LastBoot("v", "A", "2")) == "A_2";
    run := TakeSnapshot(run);
  }

  /** From the gate to a recorded healthy boot in which the cluster wrote `y`. */
  lemma HealthyTail(run: seq<State>, y: seq<Tree>) returns (longer: seq<State>)
    requires |run| > 0 && Chain(run) && |y| == PARTS && run[|run| - 1].pc.Gated?
    ensures |longer| > 0 && longer[0] == run[0] && Chain(longer)
    ensures var s := run[|run| - 1];
            longer[|longer| - 1] == s.(env := s.env.(kubelet := true), pc := Idle, hist := s.hist.(tainted := false),
              store := s.store.(live := y, lastBoot := Some(LastBoot("v", s.env.deployment, s.env.bootID))))
  {
    var s := run[|run| - 1];
    var s1 := s.(env := s.env.(kubelet := true), pc := Running);
    assert StartKubelet(s, s1);
    longer := Extend(run, s1);
    var s2 := s1.Live(y, s.store.clock);
    assert ClusterWrites(s1, s2);
    longer := Extend(longer, s2);
    assert Healthy(s2, s2.To(Finishing));
    longer := Extend(longer, s2.To(Finishing));
    var s3 := s2.(store := s2.store.(lastBoot := Some(LastBoot("v", s.env.deployment, s.env.bootID))),
                  pc := Idle, hist := s2.hist.(tainted := false));
    assert WriteLastBoot(s2.To(Finishing), s3);
    longer := Extend(longer, s3);
  }

  /** The marker is placed, boot "3" restores etcd from "A_1" and gives up. */
  lemma RestoreFailsAfterEtcd(run: seq<State>, x: seq<Tree>) returns (longer: seq<State>)
    requires |run| > 0 && Chain(run) && |x| == PARTS
    requires var s := run[|run| - 1];
             && s.env.ostree && s.env.deployment == "A" && "A" in s.env.known && "3" !in s.env.used
             && |s.store.live| == PARTS && HasCAs(s.store.live[KUBERNETES])
             && s.store.backups.Keys == {"A_1"} && s.store.backups["A_1"].content == x
    ensures |longer| > 0 && longer[0] == run[0] && Chain(longer)
    ensures var s := Rebooted(run[|run| - 1], "A", "3");
            longer[|longer| - 1] == s.(store := s.store.(live := s.store.live[0 := x[0]], marker := false),
                                       hist := s.hist.(tainted := true))
  {
    var s := run[|run| - 1];
    var m := s.(store := s.store.(marker := true));
    assert PlaceMarker(s, m);
    longer := Extend(run, m);
    var b := Rebooted(m, "A", "3");
    assert Reboot(m, b) by { assert GoodBootID("3"); }
    longer := Extend(longer, b);
    longer := Extend(longer, b.To(Booting));
    var c := b.(pc := Restoring("A_1", 0), hist := b.hist.(tainted := true));
    DeployOfName(LastBoot("v", "A", "1"));
    assert Name(LastBoot("v", "A", "1")) == "A_1";
    assert Choose(b.To(Booting), c);
    longer := Extend(longer, c);
    var r := c.Live(c.store.live[0 := x[0]], c.store.clock).To(Restoring("A_1", 1));
    assert RestorePart(c, r);
    longer := Extend(longer, r);
    var g := r.(store := r.store.(marker := false), pc := Idle);
    assert GiveUp(r, g);
    longer := Extend(longer, g);
  }

  /** Removing a backup directory entry by entry freshens its modification time. A
      prune that dies inside such a removal would leave an older backup, whatever is
      still in it, as the newest of its deployment. */
  lemma TornPruneWouldBeChosen(store: Store, old_: string, new_: string, torn: Backup)
    requires Newest(store, new_) && old_ in store.backups && old_ != new_ && DeployOf(old_) == DeployOf(new_)
    requires forall n | n in store.backups :: store.backups[n].mtime < store.clock
    requires torn.mtime == store.clock
    ensures var s := store.(backups := store.backups[old_ := torn], clock := store.clock + 1);
            Newest(s, old_) && !Newest(s, new_)
  {
    var s := store.(backups := store.backups[old_ := torn], clock := store.clock + 1);
    assert s.backups[new_].mtime < s.backups[old_].mtime;
    forall m | m in s.backups && DeployOf(m) == DeployOf(old_) ensures s.backups[m].mtime <= s.backups[old_].mtime {
      assert m in store.backups;
    }
  }

  /** On disk: in any state a boot can reach, whatever the removal of a superseded
      backup has left in its directory is what the next restore would pick. */
  lemma TornRemovalIsChosen(l: Layout, m: Moment, old_: string, new_: string, kept: Tree)
    requires WellFormed(l) && Inv(View(l, m)) && kept != map[]
    requires var s := View(l, m).store;
             Newest(s, new_) && old_ in s.backups && old_ != new_ && DeployOf(old_) == DeployOf(new_)
    ensures var t := View(l, After(l, m, l.BackupsDir() + [old_], kept)).store;
            Newest(t, old_) && !Newest(t, new_) && t.backups[old_] == BackupIn(kept, m.clock)
  {
    hide Sub, Graft, Backups, Live, Exists, DeployOf, Inv, BackupIn, RecordIn;
    var s, p := View(l, m).store, l.BackupsDir() + [old_];
    var mtimes := Touched(l, m.mtimes, p, m.clock);
    IsListable(l, m, old_);
    UnderSelf(l.BackupsDir(), [old_]);
    EntryStore(l, m, old_, kept, mtimes);
    assert BackupIn(kept, m.clock).mtime == m.clock by { DatedAs(kept, m.clock); }
    BeforeNow(View(l, m));
    TornPruneWouldBeChosen(s, old_, new_, BackupIn(kept, m.clock));
  }

  lemma DatedAs(t: Tree, mtime: nat)
    ensures BackupIn(t, mtime).mtime == mtime
  {}

  lemma IsListable(l: Layout, m: Moment, n: string)
    requires n in View(l, m).store.backups
    ensures Listable(n)
  {
    hide Sub;
    BackupsAt(Sub(m.fs, l.BackupsDir()), m.mtimes, n);
  }

  lemma BeforeNow(s: State)
    requires Inv(s)
    ensures forall n | n in s.store.backups :: s.store.backups[n].mtime < s.store.clock
  {
    forall n | n in s.store.backups ensures s.store.backups[n].mtime < s.store.clock {
      assert BackupOk(s, n);
    }
  }
}
