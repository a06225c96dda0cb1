/** internal/boot: `maybeRestore` and `Run`, on disk. Every call is a step of the
    boot protocol, so what is proved of the protocol holds at every point where this
    process can die. */
module Boot {
  import opened Types
  import opened Trees
  import opened Names
  import opened Protocol
  import opened Invariant
  import opened Layouts
  import opened Effects
  import opened Disks
  import opened Moves
  import opened Restore
  import opened Snapshot
  import opened Catalog
  import opened StateFiles
  import opened Pki
  import opened Regenerate
  import opened Rotation
  import opened Preflights
  import Teardown

  // ---- the protocol's invariant along a log ----

  lemma {:induction false} InvAlong(l: Layout, log: seq<Moment>, i: nat, j: nat)
    requires Steps(l, log) && i <= j < |log| && Inv(View(l, log[i]))
    ensures Inv(View(l, log[j]))
  {
    hide View, Inv, Next;
    if i < j {
      InvAlong(l, log, i, j - 1);
      assert Can(l, log[j - 1], log[j - 1 + 1]);
      NextKeepsInv(View(l, log[j - 1]), View(l, log[j]));
    }
  }

  /** The invariant carries from an earlier moment to now, and to all in between. */
  lemma InvCarries(d: Disk, log: seq<Moment>)
    requires d.Valid() && |log| > 0 && log <= d.log && Inv(View(d.l, log[|log| - 1]))
    ensures Inv(d.State())
    ensures forall i | |log| <= i < |d.log| :: Inv(View(d.l, d.log[i]))
  {
    hide View, Inv, Can;
    forall i | |log| - 1 <= i < |d.log| ensures Inv(View(d.l, d.log[i])) {
      InvAlong(d.l, d.log, |log| - 1, i);
    }
  }

  lemma DieCan(l: Layout, m: Moment)
    ensures Can(l, m, m.(mark := m.mark.(pc := Idle)))
  {
    hide StoreOf;
    assert Die(View(l, m), View(l, m.(mark := m.mark.(pc := Idle))));
  }

  // ---- maybeRestore ----

  /** What `maybeRestore` has done: with the marker set and a backup of the booted
      deployment, the newest one is back and is the previous boot; otherwise the live
      trees and last-boot are as they were. Backups never change. */
  ghost predicate MaybeRestored(s: State, t: State, ok: bool) {
    && t.env == s.env && t.store.backups == s.store.backups && Later(s, t)
    && t.pc == (if ok then Checked else Idle)
    && (ok ==>
          if s.store.marker && s.env.deployment != "" && BackedUp(s.store, s.env.deployment)
          then exists n | Newest(s.store, n) && DeployOf(n) == s.env.deployment ::
                 t.store.live == s.store.backups[n].content && t.store.lastBoot == s.store.backups[n].meta
          else t.store.live == s.store.live && t.store.lastBoot == s.store.lastBoot)
  }

  lemma NoRestoreCan(l: Layout, m: Moment)
    requires m.mark.pc.Booting? && (!m.mark.env.ostree || !Exists(m.fs, l.RestoreMarker()))
    ensures Can(l, m, m.(mark := m.mark.(pc := Checked)))
  {
    hide Sub, Backups, Live, RecordIn;
    assert NoRestore(View(l, m), View(l, m.(mark := m.mark.(pc := Checked))));
  }

  function Choosing(mark: Mark, name: string): Mark {
    mark.(pc := Restoring(name, 0), hist := mark.hist.(tainted := true))
  }

  lemma ChooseCan(l: Layout, m: Moment, name: string)
    requires m.mark.pc.Booting? && m.mark.env.ostree && Exists(m.fs, l.RestoreMarker()) && m.mark.env.deployment != ""
    requires Newest(View(l, m).store, name) && DeployOf(name) == m.mark.env.deployment
    ensures Can(l, m, m.(mark := Choosing(m.mark, name)))
  {
    hide Sub, Backups, Live, RecordIn, DeployOf, Exists;
    assert Choose(View(l, m), View(l, m.(mark := Choosing(m.mark, name))));
  }

  lemma RestoreDoneCan(l: Layout, m: Moment, name: string)
    requires m.mark.pc == Restoring(name, PARTS)
    ensures Can(l, m, m.(mark := m.mark.(pc := Restored(name))))
  {
    hide StoreOf;
    assert RestoreDone(View(l, m), View(l, m.(mark := m.mark.(pc := Restored(name)))));
  }

  /** From the chosen backup to the recorded restore. */
  method RestoreAndRecord(d: Disk, name: string) returns (ok: bool)
    requires d.Valid() && d.mark.pc == Restoring(name, 0) && Inv(d.State()) && name in d.State().store.backups
    modifies d
    ensures old(d.clock) <= d.clock && (!ok ==> Faulty(d.faults, old(d.clock), d.clock))
    ensures Sub(d.fs, d.l.Staging()) == old(Sub(d.fs, d.l.Staging()))
    ensures var s, t := old(d.State()), d.State();
            && t.env == s.env && t.store.backups == s.store.backups && Later(s, t) && t.store.marker == s.store.marker
            && (ok ==> t.pc == Recorded(name) && t.store.live == s.store.backups[name].content
                       && t.store.lastBoot == s.store.backups[name].meta)
            && (!ok ==> t.pc.Restoring? || t.pc.Restored?)
    ensures d.Valid() && old(d.log) <= d.log
  {
    hide Can, Sub, Graft, StoreOf, Inv, Hidden, Exists, Next;
    ghost var s := d.State();
    ContentSize(s, name);
    StagingIsOutside(d.l);
    ok := Restore.Restore(d, name, d.l.Staging());
    if !ok { return; }
    RestoreDoneCan(d.l, d.Now(), name);
    d.Advance(d.mark.(pc := Restored(name)));
    var meta := ReadMeta(d, name);
    MetaThere(s, name);
    if meta.Err? { return false; }
    ok := StateFiles.WriteLastBoot(d, meta.value, Mark(d.mark.env, Recorded(name), d.mark.hist.(tainted := false)));
  }

  lemma MetaThere(s: State, name: string)
    requires Inv(s) && name in s.store.backups
    ensures s.store.backups[name].meta.Some?
  {
    assert BackupOk(s, name);
  }

  lemma ContentSize(s: State, name: string)
    requires Inv(s) && name in s.store.backups
    ensures |s.store.backups[name].content| == PARTS
  {
    assert BackupOk(s, name);
  }

  /** From the choice of a backup to the deferred clear. */
  method RestoreChosen(d: Disk, name: string) returns (ok: bool)
    requires d.Valid() && d.mark.pc.Booting? && d.mark.env.ostree && Inv(d.State()) && d.State().store.marker
    requires d.mark.env.deployment != "" && Newest(d.State().store, name) && DeployOf(name) == d.mark.env.deployment
    modifies d
    ensures old(d.clock) <= d.clock
    ensures !ok || d.State().store.marker ==> Faulty(d.faults, old(d.clock), d.clock)
    ensures Sub(d.fs, d.l.Staging()) == old(Sub(d.fs, d.l.Staging()))
    ensures MaybeRestored(old(d.State()), d.State(), ok)
    ensures d.Valid() && old(d.log) <= d.log
  {
    hide Can, Sub, Graft, StoreOf, Inv, Hidden, Next, Steps, WellFormed;
    ghost var log := d.log;
    MarkerIs(d.l, d.Now());
    ChooseCan(d.l, d.Now(), name);
    d.Advance(Choosing(d.mark, name));
    InvCarries(d, log);
    ok := RestoreAndRecord(d, name);
    ClearRestoreMarker(d, d.mark.(pc := if ok then Checked else Idle));
  }

  /** maybeRestore on a host with the marker and a deployment id. */
  method ChooseAndRestore(d: Disk, deployment: string) returns (ok: bool)
    requires d.Valid() && d.mark.pc.Booting? && d.mark.env.ostree && deployment == d.mark.env.deployment && Inv(d.State())
    requires deployment != "" && d.State().store.marker
    modifies d
    ensures old(d.clock) <= d.clock
    ensures !ok || d.State().store.marker ==> Faulty(d.faults, old(d.clock), d.clock)
    ensures Sub(d.fs, d.l.Staging()) == old(Sub(d.fs, d.l.Staging()))
    ensures MaybeRestored(old(d.State()), d.State(), ok)
    ensures d.Valid() && old(d.log) <= d.log
  {
    hide Can, Sub, Graft, StoreOf, Inv, Hidden, Next, Steps, WellFormed;
    ghost var s, log := d.State(), d.log;
    TickCan(d.l, d.Now());
    ViewTicked(d.l, d.Now(), Ticked(d.Now()));
    ok := d.Attempt();
    if !ok {
      ClearRestoreMarker(d, d.mark.(pc := Idle));
      return;
    }
    ghost var t := d.State();
    InvCarries(d, log);
    PlainDeployment(t);
    var name := LatestForDeployment(d, deployment);
    if name == "" {
      ClearRestoreMarker(d, d.mark.(pc := Checked));
      return true;
    }
    ghost var u := d.State();
    InvCarries(d, log);
    ok := RestoreChosen(d, name);
    RestoredSince(s, u, d.State(), ok);
  }

  lemma RestoredSince(s: State, t: State, u: State, ok: bool)
    requires Tick(s, t) && MaybeRestored(t, u, ok)
    ensures MaybeRestored(s, u, ok)
  {
    hide DeployOf;
    SameNewest(s.store, t.store);
  }

  /** maybeRestore. The deferred clear drops the marker on every path but the first:
      when the marker itself cannot be read. */
  method MaybeRestore(d: Disk, deployment: string) returns (ok: bool)
    requires d.Valid() && d.mark.pc.Booting? && d.mark.env.ostree && deployment == d.mark.env.deployment && Inv(d.State())
    modifies d
    ensures old(d.clock) <= d.clock
    ensures !ok || d.State().store.marker ==> Faulty(d.faults, old(d.clock), d.clock)
    ensures Sub(d.fs, d.l.Staging()) == old(Sub(d.fs, d.l.Staging()))
    ensures MaybeRestored(old(d.State()), d.State(), ok)
    ensures d.Valid() && old(d.log) <= d.log
  {
    hide Can, Sub, Graft, StoreOf, Inv, Hidden, Next, Steps, WellFormed;
    ghost var s, log := d.State(), d.log;
    TickCan(d.l, d.Now());
    ViewTicked(d.l, d.Now(), Ticked(d.Now()));
    ok := d.Attempt();
    if !ok {
      DieCan(d.l, d.Now());
      d.Advance(d.mark.(pc := Idle));
      return;
    }
    MarkerIs(d.l, d.Now());
    if !Exists(d.fs, d.l.RestoreMarker()) {
      NoRestoreCan(d.l, d.Now());
      d.Advance(d.mark.(pc := Checked));
      return;
    }
    if deployment == "" {
      ClearRestoreMarker(d, d.mark.(pc := Checked));
      return;
    }
    ghost var t := d.State();
    InvCarries(d, log);
    ok := ChooseAndRestore(d, deployment);
    RestoredSince(s, t, d.State(), ok);
  }

  lemma MarkerIs(l: Layout, m: Moment)
    ensures View(l, m).store.marker == Exists(m.fs, l.RestoreMarker())
  {
    hide Sub, Exists, Live, Backups, RecordIn;
  }

  lemma PlainDeployment(s: State)
    requires Inv(s)
    ensures '_' !in s.env.deployment
  {}

  // ---- the snapshot gate ----

  /** The last-boot file is there and does not parse. */
  ghost predicate GarbledLastBoot(l: Layout, fs: Tree) {
    Exists(fs, l.LastBootFile()) && RecordIn(Sub(fs, l.LastBootFile())).None?
  }

  /** What the gate has done: when a snapshot of the previous boot is due its backup
      is there, a new one holding the live trees as they are; otherwise, or when that
      fails, the backups are as they were. Nothing else changes. */
  ghost predicate GatePassed(s: State, t: State, ok: bool) {
    && t.env == s.env && Later(s, t)
    && t.store == s.store.(backups := t.store.backups, clock := t.store.clock)
    && (ok ==> t.pc.Gated?)
    && if ok && SnapshotDue(s.env, s.store.lastBoot) && Name(s.store.lastBoot.value) !in s.store.backups
       then var n := Name(s.store.lastBoot.value);
            n in t.store.backups && t.store.backups == s.store.backups[n := Backup(s.store.lastBoot, s.store.live, t.store.backups[n].mtime)]
       else t.store.backups == s.store.backups
  }

  function Skipping(mark: Mark, prev: Option<LastBoot>): Mark {
    mark.(pc := Gated,
          hist := mark.hist.(tainted := mark.hist.tainted || (prev.Some? && prev.value.bootID != mark.env.bootID)))
  }

  lemma LastBootIs(l: Layout, m: Moment)
    ensures View(l, m).store.lastBoot == RecordIn(Sub(m.fs, l.LastBootFile()))
  {
    hide Sub, Live, Backups, Exists, RecordIn;
  }

  lemma SkipCan(l: Layout, m: Moment)
    requires m.mark.pc.Checked? && !SnapshotDue(m.mark.env, View(l, m).store.lastBoot)
    ensures Can(l, m, m.(mark := Skipping(m.mark, View(l, m).store.lastBoot)))
  {
    hide StoreOf;
    assert SnapshotSkipped(View(l, m), View(l, m.(mark := Skipping(m.mark, View(l, m).store.lastBoot))));
  }

  /** Reading last-boot, and the switch that calls `Create` or logs why not. */
  method SnapshotGate(d: Disk, useBackups: bool, deployment: string, bootID: string)
    returns (ok: bool, prev: Option<LastBoot>)
    requires d.Valid() && d.mark.pc.Checked? && Inv(d.State())
    requires useBackups == d.mark.env.ostree && deployment == d.mark.env.deployment && bootID == d.mark.env.bootID
    requires useBackups ==> Sub(d.fs, d.l.Staging()) == EMPTY_DIR
    modifies d
    ensures old(d.clock) <= d.clock
    ensures !ok ==> Faulty(d.faults, old(d.clock), d.clock) || GarbledLastBoot(d.l, old(d.fs))
    ensures GatePassed(old(d.State()), d.State(), ok)
    ensures ok ==> prev == old(d.State().store.lastBoot)
    ensures d.Valid() && old(d.log) <= d.log
  {
    hide Can, Sub, Graft, StoreOf, Inv, Hidden, Next, Steps, WellFormed;
    ghost var log := d.log;
    var r := ReadLastBoot(d);
    LastBootIs(d.l, d.Now());
    if r.Err? { return false, None; }
    prev := r.value;
    InvCarries(d, log);
    if useBackups && prev.Some? && prev.value.bootID != "" && prev.value.bootID != bootID {
      if prev.value.deploymentID == "" || prev.value.deploymentID != deployment {
        SkipCan(d.l, d.Now());
        d.Advance(Skipping(d.mark, prev));
        ok := true;
      } else {
        ok := Create(d, prev.value);
      }
    } else {
      SkipCan(d.l, d.Now());
      d.Advance(Skipping(d.mark, prev));
      ok := true;
    }
  }

  // ---- reconcile ----

  /** Only the live trees and the clock have changed. */
  ghost predicate LiveOnly(s: State, t: State) {
    Later(s, t) && |s.store.live| == |t.store.live| == PARTS && t == s.Live(t.store.live, t.store.clock)
  }

  lemma LiveOnlyTransitive(s: State, t: State, u: State)
    requires LiveOnly(s, t) && LiveOnly(t, u)
    ensures LiveOnly(s, u)
  {}

  lemma ReconciledIsLiveOnly(s: State, t: State)
    requires Reconciled(s, t)
    ensures LiveOnly(s, t) && t.store.live[2..] == s.store.live[2..]
  {}

  /** Of the kubernetes directory only the entry `a` has changed. */
  ghost predicate Beyond(k: Tree, k': Tree, a: string) {
    forall b | b != a :: Sub(k', [b]) == Sub(k, [b])
  }

  /** The kubernetes directory now. */
  ghost function KubeNow(d: Disk): Tree
    reads d
  {
    Kube(d.l, d.Now())
  }

  lemma FileCan(l: Layout, m: Moment, i: nat, t: Tree)
    requires WellFormed(l) && m.mark.pc.Gated? && 2 <= i < PARTS
    ensures var m' := After(l, m, LivePath(l, i), t);
            && Can(l, m, m') && LiveOnly(View(l, m), View(l, m')) && Kube(l, m') == Kube(l, m)
            && View(l, m').store.live == View(l, m).store.live[i := t]
  {
    hide Sub, Graft, Backups, Exists, HasCAs, NoSuperAdmin;
    LivePartStore(l, m, i, t);
    LiveApart(l, i, KUBERNETES);
    SubGraftApart(m.fs, LivePath(l, i), t, l.kubernetesDir);
    assert Reconcile(View(l, m), View(l, After(l, m, LivePath(l, i), t)));
  }

  /** Entries of the kubernetes directory the guard does not look at. */
  lemma EntryCan(l: Layout, m: Moment, a: string, x: Path, t: Tree)
    requires WellFormed(l) && m.mark.pc.Gated? && a != PKI && a != "super-admin.conf"
    ensures var m' := After(l, m, l.kubernetesDir + ([a] + x), t);
            && Can(l, m, m') && Reconciled(View(l, m), View(l, m'))
            && Beyond(Kube(l, m), Kube(l, m'), a) && Sub(Kube(l, m'), [a]) == Graft(Sub(Kube(l, m), [a]), x, t)
  {
    hide Sub, Graft, StoreOf, Can, Guarded, Reconciled;
    var k := Kube(l, m);
    forall b | b != a ensures Sub(Graft(k, [a] + x, t), [b]) == Sub(k, [b]) {
      OtherEntry(k, a, x, t, b);
    }
    InEntry(k, a, x, t);
    GuardSame(k, Graft(k, [a] + x, t));
    KubeCan(l, m, [a] + x, t);
    KubeView(l, m, [a] + x, t);
  }

  method WriteEntry(d: Disk, a: string, x: Path, t: Tree) returns (ok: bool)
    requires d.Valid() && d.mark.pc.Gated? && a != PKI && a != "super-admin.conf"
    modifies d
    ensures old(d.clock) <= d.clock && (!ok ==> Faulty(d.faults, old(d.clock), d.clock))
    ensures Beyond(old(KubeNow(d)), KubeNow(d), a)
    ensures ok ==> Sub(KubeNow(d), [a]) == Graft(old(Sub(KubeNow(d), [a])), x, t)
    ensures Reconciled(old(d.State()), d.State())
    ensures d.Valid() && old(d.log) <= d.log && d.mark == old(d.mark)
  {
    hide Can, Sub, Graft, View, Steps, Reconciled, Beyond;
    ghost var m := d.Now();
    var p := d.l.kubernetesDir + ([a] + x);
    forall u: Tree ensures Can(d.l, m, After(d.l, m, p, u)) {
      EntryCan(d.l, m, a, x, u);
    }
    NotInBackups(d.l, [a] + x);
    ok := d.Write(p, t);
    EntryCan(d.l, m, a, x, if ok then t else d.faults(m.clock).debris);
  }

  method WriteKubeletFile(d: Disk, i: nat, t: Tree) returns (ok: bool)
    requires d.Valid() && d.mark.pc.Gated? && 2 <= i < PARTS
    modifies d
    ensures old(d.clock) <= d.clock && (!ok ==> Faulty(d.faults, old(d.clock), d.clock))
    ensures KubeNow(d) == old(KubeNow(d)) && LiveOnly(old(d.State()), d.State())
    ensures ok ==> d.State().store.live == old(d.State().store.live)[i := t]
    ensures d.Valid() && old(d.log) <= d.log && d.mark == old(d.mark)
  {
    hide Can, Sub, Graft, StoreOf, Steps, LiveOnly;
    ghost var m := d.Now();
    ViewShape(d.l, m);
    forall u: Tree ensures Can(d.l, m, After(d.l, m, LivePath(d.l, i), u)) {
      FileCan(d.l, m, i, u);
    }
    StagedFacts(d.l, i);
    ok := d.Write(LivePath(d.l, i), t);
    FileCan(d.l, m, i, if ok then t else d.faults(m.clock).debris);
  }

  const MANIFESTS: string := "manifests"

  method MakeManifestsDir(d: Disk) returns (ok: bool)
    requires d.Valid() && d.mark.pc.Gated?
    modifies d
    ensures old(d.clock) <= d.clock && (!ok ==> Faulty(d.faults, old(d.clock), d.clock))
    ensures Beyond(old(KubeNow(d)), KubeNow(d), MANIFESTS)
    ensures Reconciled(old(d.State()), d.State())
    ensures d.Valid() && old(d.log) <= d.log && d.mark == old(d.mark)
  {
    hide Can, Sub, Graft, View, Steps, Reconciled, Exists;
    ghost var m := d.Now();
    var p := d.l.kubernetesDir + [MANIFESTS];
    assert p == d.l.kubernetesDir + ([MANIFESTS] + []);
    assert |MANIFESTS| == 9 && |PKI| == 3 && |"super-admin.conf"| == 16;
    EntryCan(d.l, m, MANIFESTS, [], EMPTY_DIR);
    TickCan(d.l, m);
    TickedReconciles(d.l, m);
    ok := d.MkdirAll(p);
  }

  /** What kubeadm renders: the static pod manifests by name, and the kubelet files. */
  datatype Rendered = Rendered(manifests: seq<(string, Tree)>, config: Tree, instance: Tree, flags: Tree) {
    ghost predicate Distinct() {
      forall i, j | 0 <= i < j < |manifests| :: manifests[i].0 != manifests[j].0
    }
  }

  /** The first `n` manifests are in the directory as rendered. */
  ghost predicate ManifestsIn(dir: Tree, rendered: Rendered, n: nat) {
    n <= |rendered.manifests| && forall i | 0 <= i < n :: Sub(dir, [rendered.manifests[i].0]) == rendered.manifests[i].1
  }

  lemma OneMoreManifest(dir: Tree, rendered: Rendered, n: nat)
    requires rendered.Distinct() && ManifestsIn(dir, rendered, n) && n < |rendered.manifests|
    ensures ManifestsIn(Graft(dir, [rendered.manifests[n].0], rendered.manifests[n].1), rendered, n + 1)
  {
    hide Sub, Graft;
    var (name, t) := rendered.manifests[n];
    SubGraftSame(dir, [name], t);
    forall i | 0 <= i < n ensures Sub(Graft(dir, [name], t), [rendered.manifests[i].0]) == rendered.manifests[i].1 {
      OtherEntry(dir, name, [], t, rendered.manifests[i].0);
      assert [name] + [] == [name];
    }
  }

  /** The manifests half of kubeadm.Ensure. */
  method WriteManifests(d: Disk, rendered: Rendered) returns (ok: bool)
    requires d.Valid() && d.mark.pc.Gated? && rendered.Distinct()
    modifies d
    ensures old(d.clock) <= d.clock && (!ok ==> Faulty(d.faults, old(d.clock), d.clock))
    ensures Beyond(old(KubeNow(d)), KubeNow(d), MANIFESTS)
    ensures ok ==> ManifestsIn(Sub(KubeNow(d), [MANIFESTS]), rendered, |rendered.manifests|)
    ensures Reconciled(old(d.State()), d.State())
    ensures d.Valid() && old(d.log) <= d.log && d.mark == old(d.mark)
  {
    hide Can, Sub, Graft, View, Steps, Reconciled;
    ghost var s, k := d.State(), KubeNow(d);
    assert |MANIFESTS| == 9 && |PKI| == 3 && |"super-admin.conf"| == 16;
    ok := MakeManifestsDir(d);
    var i := 0;
    while ok && i < |rendered.manifests|
      invariant 0 <= i <= |rendered.manifests| && d.Valid() && old(d.log) <= d.log && d.mark == old(d.mark)
      invariant Reconciled(s, d.State()) && Beyond(k, KubeNow(d), MANIFESTS)
      invariant ok ==> ManifestsIn(Sub(KubeNow(d), [MANIFESTS]), rendered, i)
      invariant old(d.clock) <= d.clock && (!ok ==> Faulty(d.faults, old(d.clock), d.clock))
      decreases |rendered.manifests| - i, ok
    {
      ghost var t, dir := d.State(), Sub(KubeNow(d), [MANIFESTS]);
      ok := WriteEntry(d, MANIFESTS, [rendered.manifests[i].0], rendered.manifests[i].1);
      ReconciledTransitive(s, t, d.State());
      OneMoreManifest(dir, rendered, i);
      i := i + 1;
    }
  }

  /** kubeadm.Ensure: the manifests, then the kubelet files, the instance file before
      the configuration that reads it; nothing else in the kubernetes directory. */
  method Ensure(d: Disk, rendered: Rendered) returns (ok: bool)
    requires d.Valid() && d.mark.pc.Gated? && rendered.Distinct()
    modifies d
    ensures old(d.clock) <= d.clock && (!ok ==> Faulty(d.faults, old(d.clock), d.clock))
    ensures Beyond(old(KubeNow(d)), KubeNow(d), MANIFESTS)
    ensures ok ==> ManifestsIn(Sub(KubeNow(d), [MANIFESTS]), rendered, |rendered.manifests|)
    ensures ok ==> d.State().store.live[2..] == [rendered.config, rendered.instance, rendered.flags]
    ensures LiveOnly(old(d.State()), d.State())
    ensures d.Valid() && old(d.log) <= d.log && d.mark == old(d.mark)
  {
    hide Can, Sub, Graft, StoreOf, Steps, LiveOnly, Reconciled, Beyond, ManifestsIn;
    ghost var s := d.State();
    ok := WriteManifests(d, rendered);
    ReconciledIsLiveOnly(s, d.State());
    if !ok { return; }
    ghost var r := d.State();
    ok := MakeKubeletRoot(d);
    LiveOnlyTransitive(s, r, d.State());
    ghost var t := d.State();
    if !ok { return; }
    ok := WriteKubeletFiles(d, rendered);
    LiveOnlyTransitive(s, t, d.State());
  }

  /** `os.MkdirAll` of the kubelet directory. */
  method MakeKubeletRoot(d: Disk) returns (ok: bool)
    requires d.Valid() && d.mark.pc.Gated?
    modifies d
    ensures old(d.clock) <= d.clock && (!ok ==> Faulty(d.faults, old(d.clock), d.clock))
    ensures KubeNow(d) == old(KubeNow(d)) && LiveOnly(old(d.State()), d.State())
    ensures d.Valid() && old(d.log) <= d.log && d.mark == old(d.mark)
  {
    hide Can, Sub, Graft, StoreOf, Steps;
    ViewShape(d.l, d.Now());
    RootsApart(d.l, 1, 2, [], []);
    assert d.l.kubernetesDir + [] == d.l.kubernetesDir && d.l.kubeletDir + [] == d.l.kubeletDir;
    ok := MakeDirectory(d, d.l.kubeletDir, d.l.kubernetesDir);
  }

  /** The kubelet half of kubeadm.Ensure. */
  method WriteKubeletFiles(d: Disk, rendered: Rendered) returns (ok: bool)
    requires d.Valid() && d.mark.pc.Gated?
    modifies d
    ensures old(d.clock) <= d.clock && (!ok ==> Faulty(d.faults, old(d.clock), d.clock))
    ensures KubeNow(d) == old(KubeNow(d)) && LiveOnly(old(d.State()), d.State())
    ensures ok ==> d.State().store.live[2..] == [rendered.config, rendered.instance, rendered.flags]
    ensures d.Valid() && old(d.log) <= d.log && d.mark == old(d.mark)
  {
    hide Can, Sub, Graft, StoreOf, Steps, LiveOnly;
    ghost var s := d.State();
    ViewShape(d.l, d.Now());
    ok := WriteKubeletFile(d, 4, rendered.flags);
    if !ok { return; }
    ghost var t := d.State();
    ok := WriteKubeletFile(d, 3, rendered.instance);
    LiveOnlyTransitive(s, t, d.State());
    if !ok { return; }
    ghost var u := d.State();
    ok := WriteKubeletFile(d, 2, rendered.config);
    LiveOnlyTransitive(s, u, d.State());
  }

  const KUBELET_CONF: string := "kubelet.conf"

  function KubeletPem(l: Layout): Path {
    l.kubeletDir + ["pki", "kubelet-client-current.pem"]
  }

  /** The kubeconfig `now` is `was` with its client certificate taken from `pem`. */
  predicate PointsAt(was: Tree, now: Tree, pem: Path) {
    IsKubeconfig(was) && IsKubeconfig(now) && now[[]].data == was[[]].data.(user := Referenced(pem))
  }

  /** Nothing but kubelet.conf has changed, and that only once kubelet has a certificate
      of its own, which kubelet.conf then references. */
  ghost predicate Finalized(l: Layout, m: Moment, m': Moment, ok: bool) {
    && Beyond(Kube(l, m), Kube(l, m'), KUBELET_CONF)
    && (if Exists(m.fs, KubeletPem(l))
        then ok ==> PointsAt(Sub(Kube(l, m), [KUBELET_CONF]), Sub(Kube(l, m'), [KUBELET_CONF]), KubeletPem(l))
        else m'.fs == m.fs)
  }

  /** FinalizeKubeletKubeconfig: once kubelet has a certificate of its own, kubelet.conf
      is rewritten in place to reference it, the rest of the file kept. */
  method FinalizeKubeletKubeconfig(d: Disk) returns (ok: bool)
    requires d.Valid() && d.mark.pc.Gated?
    modifies d
    ensures old(d.clock) <= d.clock
    ensures !ok ==> Faulty(d.faults, old(d.clock), d.clock) || !IsKubeconfig(old(Sub(KubeNow(d), [KUBELET_CONF])))
    ensures Finalized(d.l, old(d.Now()), d.Now(), ok)
    ensures Reconciled(old(d.State()), d.State())
    ensures d.Valid() && old(d.log) <= d.log && d.mark == old(d.mark)
  {
    hide Can, Sub, Graft, View, Steps, Reconciled, Exists;
    ghost var s := d.State();
    var pem := KubeletPem(d.l);
    ok := Look(d);
    if !ok || !Exists(d.fs, pem) { return; }
    ghost var t := d.State();
    ok := Look(d);
    ReconciledTransitive(s, t, d.State());
    SubOfSub(d.fs, d.l.kubernetesDir, [KUBELET_CONF]);
    var file := Sub(d.fs, d.l.kubernetesDir + [KUBELET_CONF]);
    if !ok || !IsKubeconfig(file) { return false; }
    if file[[]].data.user == Referenced(pem) { return; }
    ghost var u := d.State();
    ok := WriteKubeletConf(d, file, pem);
    ReconciledTransitive(s, u, d.State());
  }

  /** `clientcmd.WriteToFile` of the edited kubeconfig. */
  method WriteKubeletConf(d: Disk, file: Tree, pem: Path) returns (ok: bool)
    requires d.Valid() && d.mark.pc.Gated? && IsKubeconfig(file)
    modifies d
    ensures old(d.clock) <= d.clock && (!ok ==> Faulty(d.faults, old(d.clock), d.clock))
    ensures Beyond(old(KubeNow(d)), KubeNow(d), KUBELET_CONF)
    ensures ok ==> PointsAt(file, Sub(KubeNow(d), [KUBELET_CONF]), pem)
    ensures Reconciled(old(d.State()), d.State())
    ensures d.Valid() && old(d.log) <= d.log && d.mark == old(d.mark)
  {
    hide Can, Sub, Graft, View, Steps, Reconciled;
    assert |PKI| == 3 && |"super-admin.conf"| == 16 && |KUBELET_CONF| == 12;
    ghost var was := Sub(KubeNow(d), [KUBELET_CONF]);
    var edited := Trees.Leaf(file[[]].data.(user := Referenced(pem)));
    ok := WriteEntry(d, KUBELET_CONF, [], edited);
    GraftAll(was, edited);
  }

  /** Certificates are where neither Ensure nor the finalizing writes. */
  ghost predicate SameCerts(k: Tree, k': Tree) {
    (forall ca: CA :: CaCert(k', ca) == CaCert(k, ca)) && forall leaf: Leaf :: LeafCert(k', leaf) == LeafCert(k, leaf)
  }

  /** The entries certificates are read from do not change. */
  lemma EntriesKeepCerts(k: Tree, k': Tree)
    requires forall b | b != MANIFESTS && b != KUBELET_CONF && !HasPrefix(b, PROBE) :: Sub(k', [b]) == Sub(k, [b])
    ensures SameCerts(k, k') && (Sub(k', [KUBELET_CONF]) == Sub(k, [KUBELET_CONF]) && Intact(k) ==> Intact(k'))
  {
    hide Sub, Crt, Key, Signer, HasPrefix;
    assert |MANIFESTS| == 9 && |PKI| == 3 && |KUBELET_CONF| == 12;
    assert !HasPrefix(PKI, PROBE) by { NoProbe(PKI); }
    assert Sub(k', [PKI]) == Sub(k, [PKI]);
    forall leaf: Leaf ensures LeafCert(k', leaf) == LeafCert(k, leaf) && Garbled(k', leaf) == Garbled(k, leaf) {
      if !IsPki(leaf) {
        assert |ConfName(leaf)| == 10 || |ConfName(leaf)| == 16 || |ConfName(leaf)| == 23 || |ConfName(leaf)| == 14;
        NoProbe(ConfName(leaf));
        assert Sub(k', [ConfName(leaf)]) == Sub(k, [ConfName(leaf)]);
      }
    }
  }

  lemma NoProbe(a: string)
    requires |a| > 0 && a[0] != '.'
    ensures !HasPrefix(a, PROBE)
  {
    assert PROBE[0] == '.';
  }

  lemma BeyondKeepsCerts(k: Tree, k': Tree, a: string)
    requires Beyond(k, k', a) && (a == MANIFESTS || a == KUBELET_CONF)
    ensures SameCerts(k, k') && (a == MANIFESTS && Intact(k) ==> Intact(k'))
  {
    hide Sub, SameCerts, Intact, HasPrefix;
    assert |MANIFESTS| == 9 && |KUBELET_CONF| == 12;
    EntriesKeepCerts(k, k');
  }

  lemma SweptKeepsCerts(k: Tree, k': Tree)
    requires Swept(k') == Swept(k)
    ensures SameCerts(k, k') && (Intact(k) ==> Intact(k'))
  {
    hide Sub, Swept, SameCerts, Intact, HasPrefix;
    forall b | !HasPrefix(b, PROBE) ensures Sub(k', [b]) == Sub(k, [b]) {
      SweptReads(k, [b]);
      SweptReads(k', [b]);
    }
    NoProbe(KUBELET_CONF);
    EntriesKeepCerts(k, k');
  }

  lemma RotatedThrough(k0: Tree, k1: Tree, k2: Tree, k3: Tree, now: int, issues: CA -> Issuance, renewal: Issuance)
    requires SameCerts(k0, k1) && Rotated(k1, k2, now, issues, renewal) && SameCerts(k2, k3)
    ensures Rotated(k0, k3, now, issues, renewal)
  {
    hide CaCert, LeafCert, NeedsRotation, IssuePath, Crt, Signer;
    forall leaf | LeafCert(k0, leaf).Some? ensures LeafCert(k3, leaf) == AfterBoth(k0, k3, leaf, now, issues, renewal) {
      assert LeafCert(k2, leaf) == AfterBoth(k1, k2, leaf, now, issues, renewal);
    }
    forall leaf | LeafCert(k0, leaf).None? && LeafCert(k3, leaf).Some?
      ensures Chains(k3, leaf) && !leaf.SuperAdminConf? && (NeedsRotation(LeafCert(k3, leaf).value, now) ==> SignedAnew(k3, leaf, renewal)) {
      assert Chains(k2, leaf);
    }
  }

  /** Everything between the snapshot gate and the start of kubelet. */
  method ReconcileNode(d: Disk, plan: Plan) returns (ok: bool)
    requires d.Valid() && d.mark.pc.Gated? && plan.rendered.Distinct()
    modifies d
    ensures old(d.clock) <= d.clock
    ensures Intact(old(KubeNow(d))) && !ok ==> Faulty(d.faults, old(d.clock), d.clock)
    ensures ok ==> Prepared(old(d.State()), d.State(), plan)
    ensures LiveOnly(old(d.State()), d.State())
    ensures d.Valid() && old(d.log) <= d.log && d.mark == old(d.mark)
  {
    hide Can, Sub, Graft, StoreOf, Steps, LiveOnly, Rotated, AllFresh, Reconciled, Intact, Beyond, ManifestsIn, SameCerts, Exists;
    ghost var s, k0 := d.State(), KubeNow(d);
    KubeIsLive(d.l, d.Now());
    ok := Ensure(d, plan.rendered);
    BeyondKeepsCerts(k0, KubeNow(d), MANIFESTS);
    if !ok { return; }
    ghost var t, m, k1 := d.State(), d.Now(), KubeNow(d);
    ok := RotateCertsIfStale(d, plan.now, plan.issues, plan.renewal);
    ReconciledIsLiveOnly(t, d.State());
    LiveOnlyTransitive(s, t, d.State());
    if !ok { return; }
    ghost var u, k2 := d.State(), KubeNow(d);
    ok := FinalizeKubeletKubeconfig(d);
    ReconciledIsLiveOnly(u, d.State());
    LiveOnlyTransitive(s, u, d.State());
    BeyondKeepsCerts(k2, KubeNow(d), KUBELET_CONF);
    if ok {
      RotatedThrough(k0, k1, k2, KubeNow(d), plan.now, plan.issues, plan.renewal);
      KubeIsLive(d.l, d.Now());
    }
  }

  /** What a boot is to write: its record, kubeadm's renderings, and the instant and
      terms of a rotation. */
  datatype Plan = Plan(lb: LastBoot, rendered: Rendered, now: int, issues: CA -> Issuance, renewal: Issuance)

  /** The node is ready for kubelet: kubelet's files are as rendered and the
      certificates are rotated. */
  ghost predicate Prepared(s: State, t: State, plan: Plan) {
    && |s.store.live| == |t.store.live| == PARTS
    && t.store.live[2..] == [plan.rendered.config, plan.rendered.instance, plan.rendered.flags]
    && Rotated(s.store.live[KUBERNETES], t.store.live[KUBERNETES], plan.now, plan.issues, plan.renewal)
  }

  lemma KubeIsLive(l: Layout, m: Moment)
    ensures |View(l, m).store.live| == PARTS && View(l, m).store.live[KUBERNETES] == Kube(l, m)
  {
    hide Sub, Backups, Exists, RecordIn;
  }

  // ---- kubelet, and the tail ----

  function Started(mark: Mark): Mark {
    mark.(env := mark.env.(kubelet := true), pc := Running)
  }

  lemma StartCan(l: Layout, m: Moment)
    requires m.mark.pc.Gated?
    ensures Can(l, m, m.(mark := Started(m.mark)))
  {
    hide StoreOf;
    assert StartKubelet(View(l, m), View(l, m.(mark := Started(m.mark))));
  }

  /** The calls after `systemctl start`: waiting for /readyz and the control plane,
      marking the node, two RBAC bindings and the addons. */
  const CLUSTER_CALLS: nat := 7

  /** startKubelet and everything that needs the API server. A failed start may have
      started kubelet all the same. */
  method StartAndWait(d: Disk) returns (ok: bool)
    requires d.Valid() && d.mark.pc.Gated?
    modifies d
    ensures old(d.clock) <= d.clock && (!ok ==> Faulty(d.faults, old(d.clock), d.clock))
    ensures var s := old(d.State());
            d.State() == s.(env := s.env.(kubelet := true), pc := Running, store := s.store.(clock := d.clock))
            && s.store.clock <= d.clock
    ensures d.Valid() && old(d.log) <= d.log && d.mark == Started(old(d.mark))
  {
    hide Can, Sub, View, Steps;
    ghost var s := d.State();
    StartCan(d.l, d.Now());
    ghost var m := d.Now();
    d.Advance(Started(d.mark));
    ghost var m1 := d.Now();
    StartedView(d.l, m);
    ok := true;
    var i := 0;
    while ok && i <= CLUSTER_CALLS
      invariant 0 <= i <= CLUSTER_CALLS + 1 && d.Valid() && old(d.log) <= d.log && d.mark == m1.mark
      invariant d.Now() == m1.(clock := d.clock) && m1.clock <= d.clock
      invariant old(d.clock) <= d.clock && (!ok ==> Faulty(d.faults, old(d.clock), d.clock))
      decreases CLUSTER_CALLS + 1 - i, ok
    {
      TickCan(d.l, d.Now());
      ok := d.Attempt();
      i := i + 1;
    }
    LaterView(d.l, m1, d.Now());
  }

  lemma StartedView(l: Layout, m: Moment)
    ensures var s := View(l, m);
            View(l, m.(mark := Started(m.mark))) == s.(env := s.env.(kubelet := true), pc := Running)
            && s.store.clock == m.clock
  {
    hide Sub, Backups, Live;
  }

  lemma LaterView(l: Layout, a: Moment, b: Moment)
    requires b == a.(clock := b.clock)
    ensures View(l, b) == View(l, a).(store := View(l, a).store.(clock := b.clock)) && View(l, a).store.clock == a.clock
  {
    hide Sub, Backups, Live;
  }

  /** Pruning and last-boot change the backups and last-boot only; the backup a
      restore would pick for a listed deployment stays. */
  ghost predicate Finished(s: State, t: State, known: set<string>, lb: LastBoot) {
    && t.env == s.env && t.pc.Idle?
    && t.store == s.store.(backups := t.store.backups, lastBoot := t.store.lastBoot, clock := t.store.clock)
    && (t.store.lastBoot == Some(lb) || t.store.lastBoot == s.store.lastBoot)
    && (forall n | n in t.store.backups :: n in s.store.backups && t.store.backups[n] == s.store.backups[n])
    && (forall n | Newest(s.store, n) && (s.env.ostree ==> DeployOf(n) in known) :: n in t.store.backups)
  }

  lemma MoveCan(l: Layout, m: Moment, pc: Pc)
    requires || (m.mark.pc.Running? && (pc == Finishing || (m.mark.env.ostree && pc == Pruning(m.mark.env.known))))
             || (m.mark.pc.Pruning? && pc == Finishing)
             || (m.mark.pc.Finishing? && pc == Idle)
             || (m.mark.pc.Idle? && pc == Booting && HasCAs(Kube(l, m)))
    ensures Can(l, m, m.(mark := m.mark.(pc := pc)))
    ensures View(l, m.(mark := m.mark.(pc := pc))) == View(l, m).To(pc)
  {
    hide StoreOf, HasCAs;
    KubeIsLive(l, m);
    var s, t := View(l, m), View(l, m.(mark := m.mark.(pc := pc)));
    if m.mark.pc.Running? {
      assert Healthy(s, t);
    } else if m.mark.pc.Pruning? {
      assert PruneEnds(s, t);
    } else if m.mark.pc.Finishing? {
      assert LoseLastBoot(s, t);
    } else {
      assert Begin(s, t);
    }
  }

  /** Prune when the deployments can be listed; neither failure stops the boot. */
  method PruneKnown(d: Disk, useBackups: bool, known: set<string>)
    requires d.Valid() && d.mark.pc.Running? && Inv(d.State())
    requires useBackups == d.mark.env.ostree && known == d.mark.env.known
    modifies d
    ensures old(d.clock) <= d.clock
    ensures useBackups ==>
              Faulty(d.faults, old(d.clock), d.clock)
              || (forall n | n in old(d.State().store.backups) ::
                    n in d.State().store.backups <==> Keeps(old(d.State().store), known, n))
    ensures var s, t := old(d.State()), d.State();
            && t == s.(pc := Finishing, store := s.store.(backups := t.store.backups, clock := t.store.clock)) && Later(s, t)
            && (forall n | n in t.store.backups :: n in s.store.backups && t.store.backups[n] == s.store.backups[n])
            && (forall n | Newest(s.store, n) && (s.env.ostree ==> DeployOf(n) in known) :: n in t.store.backups)
    ensures d.Valid() && old(d.log) <= d.log
  {
    hide Can, Sub, View, Steps, Inv, Newest, DeployOf, PrunedBy, Keeps;
    ghost var s, log := d.State(), d.log;
    NewestHere(s);
    if useBackups {
      TickCan(d.l, d.Now());
      ViewTicked(d.l, d.Now(), Ticked(d.Now()));
      var listed := d.Attempt();
      if listed {
        MoveCan(d.l, d.Now(), Pruning(known));
        MarkOf(d.l, d.Now());
        d.Advance(d.mark.(pc := Pruning(known)));
        InvCarries(d, log);
        ghost var u := d.State();
        SameNewest(s.store, u.store);
        SameKeeps(s.store, u.store, known);
        var ok, gone := Prune(d, known);
        KeptNewest(u, d.State(), known, gone);
        MarkOf(d.l, d.Now());
      }
    }
    MarkOf(d.l, d.Now());
    MoveCan(d.l, d.Now(), Finishing);
    d.Advance(d.mark.(pc := Finishing));
  }

  lemma MarkOf(l: Layout, m: Moment)
    ensures View(l, m).pc == m.mark.pc && View(l, m).env == m.mark.env && View(l, m).hist == m.mark.hist
    ensures View(l, m).store.clock == m.clock
  {
    hide Sub, Backups, Live;
  }

  lemma NewestHere(s: State)
    ensures forall n | Newest(s.store, n) :: n in s.store.backups
  {}

  lemma SameNewest(s: Store, t: Store)
    requires t.backups == s.backups
    ensures forall n :: Newest(t, n) == Newest(s, n)
  {}

  lemma SameKeeps(s: Store, t: Store, known: set<string>)
    ensures t.backups == s.backups ==> forall n :: Keeps(t, known, n) == Keeps(s, known, n)
  {}

  lemma KeptNewest(s: State, t: State, known: set<string>, gone: set<string>)
    requires PrunedBy(s, t, gone) && s.pc == Pruning(known)
    ensures t == s.(store := s.store.(backups := t.store.backups, clock := t.store.clock)) && Later(s, t)
    ensures forall n | n in t.store.backups :: n in s.store.backups && t.store.backups[n] == s.store.backups[n]
    ensures forall n | Newest(s.store, n) && DeployOf(n) in known :: n in t.store.backups
  {
    hide DeployOf;
  }

  method Finish(d: Disk, useBackups: bool, known: set<string>, lb: LastBoot)
    requires d.Valid() && d.mark.pc.Running? && Inv(d.State())
    requires useBackups == d.mark.env.ostree && known == d.mark.env.known
    requires lb.deploymentID == d.mark.env.deployment && lb.bootID == d.mark.env.bootID
    modifies d
    ensures old(d.clock) <= d.clock
    ensures Faulty(d.faults, old(d.clock), d.clock)
            || (d.State().store.lastBoot == Some(lb) && (useBackups ==> Tidy(d.State().store, known)))
    ensures Finished(old(d.State()), d.State(), known, lb)
    ensures d.Valid() && old(d.log) <= d.log
  {
    hide Can, Sub, View, Steps, Inv, Newest, DeployOf;
    ghost var s := d.State();
    MarkOf(d.l, d.Now());
    PruneKnown(d, useBackups, known);
    MarkOf(d.l, d.Now());
    ghost var p := d.State();
    KeptIsTidy(s.store, p.store, known);
    ghost var to := Mark(d.mark.env, Idle, d.mark.hist.(tainted := false));
    var ok := StateFiles.WriteLastBoot(d, lb, to);
    MarkOf(d.l, d.Now());
    if !ok {
      MoveCan(d.l, d.Now(), Idle);
      d.Advance(d.mark.(pc := Idle));
    }
    SameTidy(p.store, d.State().store, known);
  }

  /** Every backup is the newest of a listed deployment. */
  ghost predicate Tidy(s: Store, known: set<string>) {
    forall n | n in s.backups :: Keeps(s, known, n)
  }

  lemma KeptIsTidy(s: Store, t: Store, known: set<string>)
    requires forall n | n in t.backups :: n in s.backups && t.backups[n] == s.backups[n]
    ensures (forall n | n in s.backups :: n in t.backups <==> Keeps(s, known, n)) ==> Tidy(t, known)
  {
    hide DeployOf;
  }

  lemma SameTidy(s: Store, t: Store, known: set<string>)
    ensures t.backups == s.backups ==> Tidy(t, known) == Tidy(s, known)
  {
    SameKeeps(s, t, known);
  }

  // ---- Run ----

  /** A healthy boot of `plan`. Kubelet is running, its files are as rendered, and
      last-boot names this boot unless its write was lost. With the marker set and a
      backup to restore, that backup is still there as it was, and the certificates
      are its own, rotated. Otherwise they are the rotated certificates this boot
      found; and when a snapshot of the previous boot was due its backup is there: the
      one that was there before, or one of the trees this boot found (but for files of
      its write probe). */
  ghost predicate Booted(s: State, t: State, plan: Plan) {
    && t.env == s.env.(kubelet := true) && t.pc.Idle? && |s.store.live| == |t.store.live| == PARTS
    && t.store.live[2..] == [plan.rendered.config, plan.rendered.instance, plan.rendered.flags]
    && (s.env.ostree && s.store.marker && s.env.deployment != "" && BackedUp(s.store, s.env.deployment) ==>
          exists n | Newest(s.store, n) && DeployOf(n) == s.env.deployment ::
            n in t.store.backups && t.store.backups[n] == s.store.backups[n] && |s.store.backups[n].content| == PARTS
            && Rotated(s.store.backups[n].content[KUBERNETES], t.store.live[KUBERNETES], plan.now, plan.issues, plan.renewal)
            && (t.store.lastBoot == Some(plan.lb) || t.store.lastBoot == s.store.backups[n].meta))
    && (!(s.env.ostree && s.store.marker) ==>
          && Rotated(s.store.live[KUBERNETES], t.store.live[KUBERNETES], plan.now, plan.issues, plan.renewal)
          && (t.store.lastBoot == Some(plan.lb) || t.store.lastBoot == s.store.lastBoot)
          && (SnapshotDue(s.env, s.store.lastBoot) ==>
                var n := Name(s.store.lastBoot.value);
                && n in t.store.backups
                && (n in s.store.backups ==> t.store.backups[n] == s.store.backups[n])
                && (n !in s.store.backups ==> t.store.backups[n].meta == s.store.lastBoot && Alike(t.store.backups[n].content, s.store.live))))
  }

  /** `maybeRestore` or, without ostree, nothing. */
  ghost predicate RestoredIfAsked(s: State, t: State) {
    if s.env.ostree then MaybeRestored(s, t, true)
    else t.env == s.env && t.store.backups == s.store.backups && t.store.live == s.store.live && t.store.lastBoot == s.store.lastBoot
  }

  /** The backup last-boot names is listed and the newest, so pruning keeps it. */
  lemma BaselineKept(b: State, c: State, t: State, known: set<string>, lb: LastBoot)
    requires Inv(b) && known == b.env.known && Finished(c, t, known, lb)
    requires c.env == b.env.(kubelet := true) && c.store.backups == b.store.backups
    requires b.store.lastBoot.Some? && Name(b.store.lastBoot.value) in b.store.backups
    requires b.store.lastBoot.value.deploymentID == b.env.deployment
    ensures var n := Name(b.store.lastBoot.value);
            n in t.store.backups && t.store.backups[n] == b.store.backups[n]
  {
    hide DeployOf, Newest, BackupsOk, Quiescent, PcOk, Faithful, Pristine, SkipTaints;
    var n := Name(b.store.lastBoot.value);
    DeployOfName(b.store.lastBoot.value);
    SameNewest(b.store, c.store);
    assert Newest(c.store, n);
  }

  /** From the gate to the end: `b` is prepared into `c`, `c` is finished as `t`. */
  ghost predicate Brought(b: State, c: State, t: State, known: set<string>, plan: Plan) {
    && c.env == b.env.(kubelet := true) && c.store.backups == b.store.backups && c.store.lastBoot == b.store.lastBoot
    && Prepared(b, c, plan) && Finished(c, t, known, plan.lb)
  }

  lemma BroughtParts(b: State, c: State, t: State, known: set<string>, plan: Plan)
    requires Brought(b, c, t, known, plan)
    ensures t.env == b.env.(kubelet := true) && t.pc.Idle? && |b.store.live| == |t.store.live| == PARTS
    ensures t.store.live[2..] == [plan.rendered.config, plan.rendered.instance, plan.rendered.flags]
    ensures Rotated(b.store.live[KUBERNETES], t.store.live[KUBERNETES], plan.now, plan.issues, plan.renewal)
    ensures t.store.lastBoot == Some(plan.lb) || t.store.lastBoot == b.store.lastBoot
  {
    hide DeployOf, Newest, Rotated;
  }

  lemma RestoredKept(s: State, a: State, b: State, c: State, t: State, known: set<string>, plan: Plan)
    requires Inv(s) && Inv(b) && known == s.env.known
    requires s.env.ostree && s.store.marker && s.env.deployment != "" && BackedUp(s.store, s.env.deployment)
    requires MaybeRestored(s, a, true) && GatePassed(a, b, true) && Brought(b, c, t, known, plan)
    ensures Booted(s, t, plan)
  {
    hide DeployOf, Newest, Inv, Finished, BackedUp, Rotated, Prepared;
    NewestHere(s);
    SizeOf(s);
    var n :| Newest(s.store, n) && DeployOf(n) == s.env.deployment
             && a.store.live == s.store.backups[n].content && a.store.lastBoot == s.store.backups[n].meta;
    LabelOf(s, n);
    ContentSize(s, n);
    BaselineKept(b, c, t, known, plan.lb);
    BroughtParts(b, c, t, known, plan);
  }

  lemma SizeOf(s: State)
    requires Inv(s)
    ensures |s.store.live| == PARTS
  {}

  lemma LabelOf(s: State, n: string)
    requires Inv(s) && n in s.store.backups
    ensures var m := s.store.backups[n].meta; m.Some? && Name(m.value) == n && m.value.deploymentID == DeployOf(n)
  {
    assert BackupOk(s, n);
    DeployOfName(s.store.backups[n].meta.value);
  }

  /** The stages of a healthy boot put together. */
  lemma StagesMakeABoot(s: State, a: State, b: State, c: State, t: State, known: set<string>, plan: Plan)
    requires Inv(s) && Inv(b) && known == s.env.known
    requires RestoredIfAsked(s, a) && GatePassed(a, b, true) && Brought(b, c, t, known, plan)
    ensures Booted(s, t, plan)
  {
    hide DeployOf, Newest, Inv, Finished, BackedUp, Rotated, Prepared;
    BroughtParts(b, c, t, known, plan);
    SizeOf(s);
    if s.env.ostree && s.store.marker {
      if s.env.deployment != "" && BackedUp(s.store, s.env.deployment) {
        RestoredKept(s, a, b, c, t, known, plan);
      }
    } else if SnapshotDue(s.env, s.store.lastBoot) {
      BaselineKept(b, c, t, known, plan.lb);
    }
  }

  method RestoreIfAsked(d: Disk, useBackups: bool, deployment: string) returns (ok: bool)
    requires d.Valid() && d.mark.pc.Booting? && Inv(d.State())
    requires useBackups == d.mark.env.ostree && deployment == d.mark.env.deployment
    modifies d
    ensures old(d.clock) <= d.clock && (!ok ==> Faulty(d.faults, old(d.clock), d.clock))
    ensures ok ==> RestoredIfAsked(old(d.State()), d.State()) && d.mark.pc.Checked? && d.mark.env == old(d.mark.env)
    ensures Sub(d.fs, d.l.Staging()) == old(Sub(d.fs, d.l.Staging()))
    ensures d.Valid() && old(d.log) <= d.log
  {
    hide Can, Sub, Graft, StoreOf, Steps, Inv, Newest, DeployOf, BackedUp, Exists;
    ok := true;
    if useBackups {
      ok := MaybeRestore(d, deployment);
    } else {
      NoRestoreCan(d.l, d.Now());
      d.Advance(d.mark.(pc := Checked));
    }
  }

  /** A restore is asked for and there is a backup to restore. */
  ghost predicate Restores(s: State) {
    s.env.ostree && s.store.marker && s.env.deployment != "" && BackedUp(s.store, s.env.deployment)
  }

  /** The certificates are intact, those of the backup when one is to be restored. */
  ghost predicate Sound(s: State) {
    && |s.store.live| == PARTS
    && if Restores(s)
       then HasCAs(s.store.live[KUBERNETES])
            && forall n | Newest(s.store, n) && DeployOf(n) == s.env.deployment ::
                 |s.store.backups[n].content| == PARTS && Intact(s.store.backups[n].content[KUBERNETES])
       else Intact(s.store.live[KUBERNETES])
  }

  /** The record that the boot will read is known to parse. */
  ghost predicate Legible(s: State) {
    Restores(s) || s.store.lastBoot.Some?
  }

  /** At some moment from the `n`th on the last-boot file was there and did not parse. */
  ghost predicate Illegible(l: Layout, log: seq<Moment>, n: nat) {
    exists i: nat | n <= i < |log| :: GarbledLastBoot(l, log[i].fs)
  }

  lemma IllegibleOn(l: Layout, log: seq<Moment>, more: seq<Moment>, n: nat, n': nat)
    requires log <= more && n' <= n
    ensures Illegible(l, log, n) ==> Illegible(l, more, n')
  {
    hide GarbledLastBoot;
    if Illegible(l, log, n) {
      var i: nat :| n <= i < |log| && GarbledLastBoot(l, log[i].fs);
      assert more[i] == log[i];
    }
  }

  lemma SoundRestores(s: State, a: State)
    requires Inv(s) && Sound(s) && RestoredIfAsked(s, a)
    ensures |a.store.live| == PARTS && Intact(a.store.live[KUBERNETES]) && (Legible(s) ==> a.store.lastBoot.Some?)
  {
    hide Intact, DeployOf, BackedUp, HasCAs, Inv, Newest;
    NewestHere(s);
    if Restores(s) {
      var n :| Newest(s.store, n) && DeployOf(n) == s.env.deployment
               && a.store.live == s.store.backups[n].content && a.store.lastBoot == s.store.backups[n].meta;
      LabelOf(s, n);
    }
  }

  lemma SoundCarries(s: State, a: State, b: State)
    requires Inv(s) && Sound(s) && RestoredIfAsked(s, a) && GatePassed(a, b, true)
    ensures |b.store.live| == PARTS && Intact(b.store.live[KUBERNETES])
  {
    hide Intact, DeployOf, Newest, Inv, Sound, RestoredIfAsked;
    SoundRestores(s, a);
  }

  lemma SoundReads(s: State, a: State, l: Layout, m: Moment)
    requires Inv(s) && RestoredIfAsked(s, a) && a == View(l, m)
    ensures Sound(s) && Legible(s) ==> !GarbledLastBoot(l, m.fs)
  {
    hide Intact, DeployOf, Newest, StoreOf, GarbledLastBoot, Inv, Sound, Legible, RestoredIfAsked;
    if Sound(s) && Legible(s) {
      SoundRestores(s, a);
      ReadsLastBoot(l, m);
    }
  }

  lemma SoundHasCAs(s: State)
    requires Sound(s)
    ensures HasCAs(s.store.live[KUBERNETES])
  {
    hide Sub, Crt, Key, Signer, Garbled, Newest, BackedUp, DeployOf;
    if !Restores(s) {
      var k := s.store.live[KUBERNETES];
      forall ca: CA ensures Present(Sub(k, [PKI]), Authority(ca)) {
        assert Owned(Sub(k, [PKI]), ca);
      }
      IntactExists(k);
    }
  }

  lemma IntactExists(k: Tree)
    requires forall ca: CA :: Present(Sub(k, [PKI]), Authority(ca))
    ensures HasCAs(k)
  {
    hide Sub, Crt, Key;
    forall ca: CA ensures Exists(k, [PKI] + Crt(Authority(ca))) {
      SubOfSub(k, [PKI], Crt(Authority(ca)));
      assert Present(Sub(k, [PKI]), Authority(ca));
      InSub(Sub(k, [PKI]), Crt(Authority(ca)), []);
      assert Crt(Authority(ca)) + [] == Crt(Authority(ca));
    }
  }

  lemma ReadsLastBoot(l: Layout, m: Moment)
    requires View(l, m).store.lastBoot.Some?
    ensures !GarbledLastBoot(l, m.fs)
  {
    hide Sub, Live, Backups, Exists, RecordIn;
  }

  /** From the kernel's boot id through the snapshot gate; `a` is the state between the
      restore and the gate. */
  method RestoreAndSnapshot(d: Disk, useBackups: bool, deployment: string, bootID: string) returns (ok: bool, ghost a: State)
    requires d.Valid() && d.mark.pc.Idle? && Inv(d.State()) && HasCAs(KubeNow(d))
    requires useBackups == d.mark.env.ostree && deployment == d.mark.env.deployment && bootID == d.mark.env.bootID
    requires useBackups ==> Sub(d.fs, d.l.Staging()) == EMPTY_DIR
    modifies d
    ensures old(d.clock) <= d.clock
    ensures Sound(old(d.State())) && !ok ==> Faulty(d.faults, old(d.clock), d.clock) || Illegible(d.l, d.log, |old(d.log)| - 1)
    ensures Sound(old(d.State())) && Legible(old(d.State())) && !ok ==> Faulty(d.faults, old(d.clock), d.clock)
    ensures ok ==> RestoredIfAsked(old(d.State()), a) && GatePassed(a, d.State(), true)
    ensures ok ==> d.mark.pc.Gated? && d.mark.env == old(d.mark.env)
    ensures ok && Sound(old(d.State())) ==> Intact(KubeNow(d))
    ensures d.Valid() && old(d.log) <= d.log
  {
    hide Can, Sub, Graft, View, Steps, Inv, GatePassed, RestoredIfAsked, Intact, GarbledLastBoot, Sound, Legible, HasCAs;
    ghost var s, log := d.State(), d.log;
    MarkOf(d.l, d.Now());
    MoveCan(d.l, d.Now(), Booting);
    d.Advance(d.mark.(pc := Booting));
    InvCarries(d, log);
    MarkOf(d.l, d.Now());
    ok := RestoreIfAsked(d, useBackups, deployment);
    a := d.State();
    if !ok { return; }
    StillAsked(s, s.To(Booting), a);
    MarkOf(d.l, d.Now());
    InvCarries(d, log);
    SoundReads(s, a, d.l, d.Now());
    ghost var g := |d.log| - 1;
    var prev;
    ok, prev := SnapshotGate(d, useBackups, deployment, bootID);
    assert GarbledLastBoot(d.l, d.log[g].fs) ==> Illegible(d.l, d.log, |log| - 1);
    if !ok { return; }
    GatedMark(a, d.State());
    if Sound(s) {
      SoundCarries(s, a, d.State());
    }
    KubeIsLive(d.l, d.Now());
    MarkOf(d.l, d.Now());
  }

  /** From the gate to the recorded healthy boot; `c` is the state when the cluster is
      healthy. */
  method BringUp(d: Disk, useBackups: bool, known: set<string>, plan: Plan) returns (ok: bool, ghost c: State)
    requires d.Valid() && d.mark.pc.Gated? && Inv(d.State())
    requires useBackups == d.mark.env.ostree && known == d.mark.env.known && plan.rendered.Distinct()
    requires plan.lb.deploymentID == d.mark.env.deployment && plan.lb.bootID == d.mark.env.bootID
    modifies d
    ensures old(d.clock) <= d.clock
    ensures Intact(old(KubeNow(d))) && !ok ==> Faulty(d.faults, old(d.clock), d.clock)
    ensures ok ==> Brought(old(d.State()), c, d.State(), known, plan)
    ensures ok ==> Faulty(d.faults, old(d.clock), d.clock)
                   || (d.State().store.lastBoot == Some(plan.lb) && (useBackups ==> Tidy(d.State().store, known)))
    ensures d.Valid() && old(d.log) <= d.log
  {
    hide Can, Sub, Graft, View, Steps, Inv, Finished, LiveOnly, Tidy, Prepared, Intact;
    ghost var b, log := d.State(), d.log;
    c := b;
    MarkOf(d.l, d.Now());
    ok := ReconcileNode(d, plan);
    ghost var r := d.State();
    LiveOnlyStore(b, r);
    if !ok { return; }
    ok := StartAndWait(d);
    c := d.State();
    if !ok { return; }
    InvCarries(d, log);
    StartedPrepared(b, r, c, plan);
    Finish(d, useBackups, known, plan.lb);
  }

  /** From the kernel's boot id to the recorded healthy boot. */
  method RunStages(d: Disk, useBackups: bool, deployment: string, bootID: string, known: set<string>, plan: Plan)
    returns (ok: bool)
    requires d.Valid() && d.mark.pc.Idle? && Inv(d.State())
    requires useBackups == d.mark.env.ostree && deployment == d.mark.env.deployment && bootID == d.mark.env.bootID
    requires known == d.mark.env.known && plan.rendered.Distinct()
    requires plan.lb.deploymentID == deployment && plan.lb.bootID == bootID
    requires HasCAs(KubeNow(d)) && (useBackups ==> Sub(d.fs, d.l.Staging()) == EMPTY_DIR)
    modifies d
    ensures old(d.clock) <= d.clock
    ensures Sound(old(d.State())) && !ok ==> Faulty(d.faults, old(d.clock), d.clock) || Illegible(d.l, d.log, |old(d.log)| - 1)
    ensures Sound(old(d.State())) && Legible(old(d.State())) && !ok ==> Faulty(d.faults, old(d.clock), d.clock)
    ensures ok ==> Booted(old(d.State()), d.State(), plan)
    ensures ok ==> Faulty(d.faults, old(d.clock), d.clock)
                   || (d.State().store.lastBoot == Some(plan.lb) && (useBackups ==> Tidy(d.State().store, known)))
    ensures d.Valid() && old(d.log) <= d.log
  {
    hide Can, Sub, Graft, View, Steps, Inv, Booted, GatePassed, Brought, RestoredIfAsked, Tidy, Intact, Sound, Legible, Illegible, HasCAs;
    ghost var s, log := d.State(), d.log;
    MarkOf(d.l, d.Now());
    ghost var a, c;
    ok, a := RestoreAndSnapshot(d, useBackups, deployment, bootID);
    if !ok { return; }
    ghost var b := d.State();
    InvCarries(d, log);
    ok, c := BringUp(d, useBackups, known, plan);
    if !ok { return; }
    EnvOf(s, a);
    StagesMakeABoot(s, a, b, c, d.State(), known, plan);
  }

  lemma StartedPrepared(b: State, r: State, c: State, plan: Plan)
    requires Prepared(b, r, plan) && c.store.live == r.store.live
    ensures Prepared(b, c, plan)
  {
    hide Rotated;
  }

  lemma StillAsked(s: State, s': State, a: State)
    requires s' == s.To(Booting) && RestoredIfAsked(s', a)
    ensures RestoredIfAsked(s, a)
  {
    hide DeployOf, Newest;
  }

  lemma EnvOf(s: State, a: State)
    requires RestoredIfAsked(s, a)
    ensures a.env == s.env
  {
    hide DeployOf, Newest;
  }

  lemma GatedMark(a: State, b: State)
    requires GatePassed(a, b, true)
    ensures b.pc.Gated? && b.env == a.env && b.store.lastBoot == a.store.lastBoot
  {}

  lemma LiveOnlyStore(s: State, t: State)
    requires LiveOnly(s, t)
    ensures t.env == s.env && t.pc == s.pc && t.store.backups == s.store.backups && t.store.lastBoot == s.store.lastBoot
  {}

  // ---- the whole of it ----

  lemma DieView(l: Layout, m: Moment)
    ensures View(l, m.(mark := m.mark.(pc := Idle))) == View(l, m).To(Idle)
  {
    hide StoreOf;
  }

  lemma TickOf(l: Layout, a: Moment, b: Moment)
    requires b == a.(clock := b.clock) && a.clock <= b.clock
    ensures Tick(View(l, a), View(l, b))
  {
    LaterView(l, a, b);
  }

  /** What the write probe leaves does not spoil a boot. */
  lemma BootedSince(s: State, v: State, t: State, plan: Plan)
    requires Probed(s, v) && HasCAs(s.store.live[KUBERNETES]) && Booted(v, t, plan)
    ensures Booted(s, t, plan)
  {
    hide DeployOf, Rotated, Swept, HasCAs, SameCerts;
    SameNewest(s.store, v.store);
    ProbedCAs(s, v);
    var k, k', t' := s.store.live[KUBERNETES], v.store.live[KUBERNETES], t.store.live[KUBERNETES];
    SweptKeepsCerts(k, k');
    SameCertsSelf(t');
    if Rotated(k', t', plan.now, plan.issues, plan.renewal) {
      RotatedThrough(k, k', t', t', plan.now, plan.issues, plan.renewal);
    }
  }

  lemma SameCertsSelf(k: Tree)
    ensures SameCerts(k, k)
  {}

  lemma SoundSince(s: State, v: State)
    requires Probed(s, v) && Sound(s)
    ensures Sound(v) && Legible(v) == Legible(s)
  {
    hide DeployOf, Swept, HasCAs, Intact, Newest;
    SoundHasCAs(s);
    assert Restores(v) == Restores(s);
    NewestHere(s);
    SameNewest(s.store, v.store);
    ProbedCAs(s, v);
    SweptKeepsCerts(s.store.live[KUBERNETES], v.store.live[KUBERNETES]);
  }

  lemma BootedStill(s: State, w: State, t: State, plan: Plan)
    requires Tick(w.To(Idle), t) && Booted(s, w, plan)
    ensures Booted(s, t, plan)
  {
    hide DeployOf, Newest, Rotated;
  }

  lemma TidyStill(w: State, t: State, known: set<string>)
    requires Tick(w.To(Idle), t)
    ensures t.store.lastBoot == w.store.lastBoot && Tidy(t.store, known) == Tidy(w.store, known)
  {
    SameTidy(w.store, t.store, known);
  }

  /** The preflights: the directories are writable, the CAs there and, for a snapshot,
      the space. */
  method Preflight(d: Disk, useBackups: bool) returns (ok: bool)
    requires d.Valid() && d.mark.pc.Idle?
    modifies d
    ensures old(d.clock) <= d.clock && d.mark == old(d.mark)
    ensures OnlyProbed(d.l, old(d.fs), d.fs) && Probed(old(d.State()), d.State())
    ensures Settled(d.l, old(d.fs)) ==> Grounded(d.l, d.log, |old(d.log)|)
    ensures ok || !Faulty(d.faults, old(d.clock), d.clock) ==> d.fs == AfterProbe(d.l, old(d.fs))
    ensures Settled(d.l, old(d.fs)) && (ok || !Faulty(d.faults, old(d.clock), d.clock)) ==>
              d.l.picoKubeVarDir in d.fs && d.l.kubernetesDir in d.fs
    ensures ok ==> HasCAs(KubeNow(d))
    ensures HasCAs(old(KubeNow(d))) && !ok ==> Faulty(d.faults, old(d.clock), d.clock)
    ensures d.Valid() && old(d.log) <= d.log
  {
    hide Can, Sub, View, Steps, HasCAs, Probed, OnlyProbed, Settled, Grounded, AfterProbe;
    ghost var m, n := d.Now(), |d.log|;
    ok := FSWritable(d);
    if !ok { return; }
    ghost var m1, log := d.Now(), d.log;
    KubeProbed(d.l, m, m1);
    ok := CAExistPreflight(d);
    if ok && useBackups {
      ok := Look(d);
    }
    TickOf(d.l, m1, d.Now());
    SizeOfView(d.l, m1);
    TickIsProbed(View(d.l, m1), d.State());
    ProbedTransitive(View(d.l, m), View(d.l, m1), d.State());
    if Settled(d.l, m.fs) {
      GroundedOn(d.l, log, d.log, n);
    }
  }

  lemma KubeProbed(l: Layout, m: Moment, m': Moment)
    requires Probed(View(l, m), View(l, m'))
    ensures HasCAs(Kube(l, m')) == HasCAs(Kube(l, m))
  {
    hide HasCAs, View, Probed;
    KubeIsLive(l, m);
    KubeIsLive(l, m');
    ProbedCAs(View(l, m), View(l, m'));
  }

  lemma DirIsState(l: Layout, fs: Tree)
    ensures l.picoKubeVarDir in fs ==> Teardown.StateExists(l, fs)
  {
    hide Sub;
    DirIsRoot(fs, l.picoKubeVarDir);
  }

  /** The process ends, and the deferred cleanup of a boot with a workspace runs. */
  method Return(d: Disk, useBackups: bool)
    requires d.Valid()
    modifies d
    ensures old(d.clock) <= d.clock && d.mark.pc.Idle?
    ensures Tick(old(d.State()).To(Idle), d.State())
    ensures d.Valid() && old(d.log) <= d.log
  {
    hide Can, Sub, View, Steps;
    DieCan(d.l, d.Now());
    DieView(d.l, d.Now());
    d.Advance(d.mark.(pc := Idle));
    if useBackups {
      var _ := Cleanup(d);
    }
    MarkOf(d.l, d.Now());
  }

  /** From the allocated workspace to the return. */
  method Supervise(d: Disk, useBackups: bool, deployment: string, bootID: string, known: set<string>, plan: Plan)
    returns (ok: bool)
    requires d.Valid() && d.mark.pc.Idle? && Inv(d.State())
    requires useBackups == d.mark.env.ostree && deployment == d.mark.env.deployment && bootID == d.mark.env.bootID
    requires known == d.mark.env.known && plan.rendered.Distinct()
    requires plan.lb.deploymentID == deployment && plan.lb.bootID == bootID
    requires HasCAs(KubeNow(d)) && (useBackups ==> Sub(d.fs, d.l.Staging()) == EMPTY_DIR)
    modifies d
    ensures old(d.clock) <= d.clock && d.mark.pc.Idle?
    ensures Sound(old(d.State())) && !ok ==> Faulty(d.faults, old(d.clock), d.clock) || Illegible(d.l, d.log, |old(d.log)| - 1)
    ensures Sound(old(d.State())) && Legible(old(d.State())) && !ok ==> Faulty(d.faults, old(d.clock), d.clock)
    ensures ok ==> Booted(old(d.State()), d.State(), plan)
    ensures ok ==> Faulty(d.faults, old(d.clock), d.clock)
                   || (d.State().store.lastBoot == Some(plan.lb) && (useBackups ==> Tidy(d.State().store, known)))
    ensures d.Valid() && old(d.log) <= d.log
  {
    hide Can, Sub, Graft, View, Steps, Inv, Booted, HasCAs, Tick, Tidy, Sound, Legible, Illegible, WellFormed, Exists, Probed;
    ghost var s, log, m := d.State(), d.log, d.Now();
    KubeIsLive(d.l, m);
    TickCan(d.l, m);
    ok := d.Attempt();
    ghost var v := d.State();
    TickProbes(d.l, m);
    InvCarries(d, log);
    if ok {
      if Sound(s) { SoundSince(s, v); }
      ghost var n := |d.log| - 1;
      ok := RunStages(d, useBackups, deployment, bootID, known, plan);
      if ok { BootedSince(s, v, d.State(), plan); }
      IllegibleOn(d.l, d.log, d.log, n, |log| - 1);
    }
    ghost var w, log1 := d.State(), d.log;
    Return(d, useBackups);
    IllegibleOn(d.l, log1, d.log, |log| - 1, |log| - 1);
    TidyStill(w, d.State(), known);
    if ok { BootedStill(s, w, d.State(), plan); }
  }

  /** From the preflights to the return: the workspace, and the boot in it. */
  method Proceed(d: Disk, useBackups: bool, deployment: string, bootID: string, known: set<string>, plan: Plan)
    returns (ok: bool)
    requires d.Valid() && d.mark.pc.Idle? && Inv(d.State()) && HasCAs(KubeNow(d))
    requires useBackups == d.mark.env.ostree && deployment == d.mark.env.deployment && bootID == d.mark.env.bootID
    requires known == d.mark.env.known && plan.rendered.Distinct()
    requires plan.lb.deploymentID == deployment && plan.lb.bootID == bootID
    modifies d
    ensures old(d.clock) <= d.clock && d.mark.pc.Idle?
    ensures Sound(old(d.State())) && !ok ==> Faulty(d.faults, old(d.clock), d.clock) || Illegible(d.l, d.log, |old(d.log)| - 1)
    ensures Sound(old(d.State())) && Legible(old(d.State())) && !ok ==> Faulty(d.faults, old(d.clock), d.clock)
    ensures ok ==> Booted(old(d.State()), d.State(), plan)
    ensures ok ==> Faulty(d.faults, old(d.clock), d.clock)
                   || (d.State().store.lastBoot == Some(plan.lb) && (useBackups ==> Tidy(d.State().store, known)))
    ensures d.Valid() && old(d.log) <= d.log
  {
    hide Can, Sub, Graft, View, Steps, Inv, Booted, HasCAs, Tick, Tidy, Sound, Legible, Illegible, WellFormed, Exists, Probed;
    ghost var s, log, m := d.State(), d.log, d.Now();
    KubeIsLive(d.l, m);
    SameProbed(s);
    ok := true;
    if useBackups {
      ok := AllocateWorkspace(d);
      TickIsProbed(s, d.State());
      InvCarries(d, log);
    }
    if !ok { return; }
    KubeProbed(d.l, m, d.Now());
    ghost var v, n := d.State(), |d.log| - 1;
    if Sound(s) { SoundSince(s, v); }
    ok := Supervise(d, useBackups, deployment, bootID, known, plan);
    if ok { BootedSince(s, v, d.State(), plan); }
    IllegibleOn(d.l, d.log, d.log, n, |log| - 1);
  }

  lemma SameProbed(s: State)
    requires |s.store.live| == PARTS
    ensures Probed(s, s)
  {
    hide Swept;
    assert s.store.live == s.store.live[KUBERNETES := s.store.live[KUBERNETES]];
  }

  /** What a boot without the CA certificates leaves. But for the two directories and
      files of its write probe nothing changes. When no call failed there is no such
      file either, the directories are there, and `state.Exists` refuses the init that
      should follow. */
  ghost predicate Refused(l: Layout, m: Moment, m': Moment, faulty: bool) {
    && OnlyProbed(l, m.fs, m'.fs) && Probed(View(l, m), View(l, m'))
    && (!faulty ==> m'.fs == AfterProbe(l, m.fs))
    && (!faulty && Settled(l, m.fs) ==>
          l.picoKubeVarDir in m'.fs && l.kubernetesDir in m'.fs && Teardown.StateExists(l, m'.fs))
  }

  /** Run: one `picokube boot`. What the process reads of its host is what the host
      is. Every moment of it, failed calls and all, is a reachable protocol state.
      Without the CA certificates it fails. A boot of a `Sound` node fails only when a
      call does or last-boot does not parse; and when no call fails, a healthy boot is
      recorded and leaves only the newest backup of each listed deployment. */
  method Run(d: Disk, isOSTree: bool, deployment: string, bootID: string, known: set<string>, plan: Plan)
    returns (ok: bool)
    requires d.Valid() && d.mark.pc.Idle? && Inv(d.State())
    requires isOSTree == d.mark.env.ostree && deployment == d.mark.env.deployment && bootID == d.mark.env.bootID
    requires known == d.mark.env.known && plan.rendered.Distinct()
    requires plan.lb.deploymentID == deployment && plan.lb.bootID == bootID
    modifies d
    ensures old(d.clock) <= d.clock
    ensures Sound(old(d.State())) && !ok ==> Faulty(d.faults, old(d.clock), d.clock) || Illegible(d.l, d.log, |old(d.log)| - 1)
    ensures Sound(old(d.State())) && Legible(old(d.State())) && !ok ==> Faulty(d.faults, old(d.clock), d.clock)
    ensures ok ==> Booted(old(d.State()), d.State(), plan)
    ensures ok ==> Faulty(d.faults, old(d.clock), d.clock)
                   || (d.State().store.lastBoot == Some(plan.lb) && (isOSTree ==> Tidy(d.State().store, known)))
    ensures !HasCAs(old(KubeNow(d))) ==> !ok && Refused(d.l, old(d.Now()), d.Now(), Faulty(d.faults, old(d.clock), d.clock))
    ensures forall i | |old(d.log)| <= i < |d.log| :: Inv(View(d.l, d.log[i]))
    ensures Settled(d.l, old(d.fs)) ==> Grounded(d.l, d.log, |old(d.log)|)
    ensures d.mark.pc.Idle?
    ensures d.Valid() && old(d.log) <= d.log
  {
    hide Can, Sub, Graft, View, Steps, Inv, Booted, HasCAs, Tidy, Sound, Legible, Illegible, WellFormed, Exists, Probed,
      OnlyProbed, Settled, Grounded, AfterProbe, Teardown.StateExists;
    ghost var s, log, m := d.State(), d.log, d.Now();
    KubeIsLive(d.l, m);
    if Sound(s) { SoundHasCAs(s); }
    ok := Preflight(d, isOSTree);
    InvCarries(d, log);
    KubeProbed(d.l, m, d.Now());
    DirIsState(d.l, d.fs);
    if !ok { return; }
    ghost var v, log1 := d.State(), d.log;
    if Sound(s) { SoundSince(s, v); }
    ok := Proceed(d, isOSTree, deployment, bootID, known, plan);
    if ok { BootedSince(s, v, d.State(), plan); }
    IllegibleOn(d.l, d.log, d.log, |log1| - 1, |log| - 1);
    InvCarries(d, log);
    if Settled(d.l, m.fs) { GroundedOn(d.l, log1, d.log, |log|); }
  }
}
