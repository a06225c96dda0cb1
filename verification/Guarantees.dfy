/** From single boots to whole runs: the log of a boot is a piece of a protocol run,
    and what every boot keeps of the kubernetes tree holds in every reachable state. */
module Guarantees {
  import opened Types
  import opened Trees
  import opened Names
  import opened Protocol
  import opened Invariant
  import opened Theorems
  import opened Layouts
  import opened Effects
  import opened Disks
  import opened Pki
  import opened Preflights
  import Teardown

  function Views(l: Layout, log: seq<Moment>): (run: seq<State>)
    ensures |run| == |log| && forall i | 0 <= i < |log| :: run[i] == View(l, log[i])
  {
    seq(|log|, i requires 0 <= i < |log| => View(l, log[i]))
  }

  /** Everything a boot does, up to any point where it dies, is a chain of protocol
      steps: the theorems on runs apply to it. */
  lemma BootIsAChain(l: Layout, log: seq<Moment>, death: nat)
    requires Steps(l, log) && death < |log|
    ensures Chain(Views(l, log[..death + 1]))
  {
    hide View, Next;
    var run := Views(l, log[..death + 1]);
    forall i | 0 <= i < |run| - 1 ensures Next(run[i], run[i + 1]) {
      assert Can(l, log[i], log[i + 1]);
    }
  }

  lemma SubOfFewer(t: Tree, u: Tree, p: Path)
    requires u.Items <= t.Items && Exists(u, p)
    ensures Exists(t, p)
  {
    hide Sub;
    var r :| r in Sub(u, p);
    InSub(u, p, r);
    InSub(t, p, r);
    assert (p + r, u[p + r]) in t.Items;
  }

  /** The cluster's own writes neither remove a CA certificate nor bring back
      super-admin.conf. Of picokube's own this is proved: its steps are guarded. */
  ghost predicate GuardedRun(run: seq<State>) {
    Run(run) && forall k | 0 <= k < |run| - 1 :: ClusterGuarded(run[k], run[k + 1])
  }

  ghost predicate ClusterGuarded(s: State, t: State) {
    ClusterWrites(s, t) && |s.store.live| == |t.store.live| == PARTS ==>
      Guarded(s.store.live[KUBERNETES], t.store.live[KUBERNETES])
  }

  lemma WritersGuarded(s: State, t: State)
    requires ClusterGuarded(s, t) && |s.store.live| == |t.store.live| == PARTS
    ensures WritersKeep(HasCAs, s, t) && WritersKeep(NoSuperAdmin, s, t)
  {
    hide HasCAs, NoSuperAdmin, Swept;
    BareHasNoCAs();
    BareHasNothing(["super-admin.conf"]);
    if WriteProbe(s, t) && Swept(t.store.live[KUBERNETES]) == Swept(s.store.live[KUBERNETES]) {
      SweptGuards(s.store.live[KUBERNETES], t.store.live[KUBERNETES]);
    }
  }

  /** After an initialisation that left all three CA certificates, they are in the
      live tree and in every backup in every reachable state, deaths inside restore and
      inside CA regeneration included: the CA preflight never blocks a restore retry. */
  lemma CAsAlwaysThere(run: seq<State>, i: nat)
    requires GuardedRun(run) && i < |run| && HasCAs(run[0].store.live[KUBERNETES])
    ensures |run[i].store.live| == PARTS && HasCAs(run[i].store.live[KUBERNETES])
    ensures forall n | n in run[i].store.backups ::
              |run[i].store.backups[n].content| == PARTS && HasCAs(run[i].store.backups[n].content[KUBERNETES])
  {
    hide HasCAs, NoSuperAdmin, Inv, Chain;
    BareHasNoCAs();
    forall k | 0 <= k < |run| - 1 ensures WritersKeep(HasCAs, run[k], run[k + 1]) {
      assert ClusterGuarded(run[k], run[k + 1]);
      SizesHold(run, k);
      SizesHold(run, k + 1);
      WritersGuarded(run[k], run[k + 1]);
    }
    KubernetesTreeProperty(HasCAs, run, i);
    SizesHold(run, i);
    RunInv(run, i);
    BackupSizes(run[i]);
  }

  lemma SizesHold(run: seq<State>, k: nat)
    requires Run(run) && k < |run|
    ensures |run[k].store.live| == PARTS
  {
    RunInv(run, k);
  }

  lemma BackupSizes(s: State)
    requires Inv(s)
    ensures forall n | n in s.store.backups :: |s.store.backups[n].content| == PARTS
  {
    forall n | n in s.store.backups ensures |s.store.backups[n].content| == PARTS {
      assert BackupOk(s, n);
    }
  }

  /** After an initialisation that removed super-admin.conf, it is in neither the live
      tree nor any backup in any reachable state. */
  lemma SuperAdminNeverReturns(run: seq<State>, i: nat)
    requires GuardedRun(run) && i < |run| && NoSuperAdmin(run[0].store.live[KUBERNETES])
    ensures |run[i].store.live| == PARTS && NoSuperAdmin(run[i].store.live[KUBERNETES])
    ensures forall n | n in run[i].store.backups ::
              |run[i].store.backups[n].content| == PARTS && NoSuperAdmin(run[i].store.backups[n].content[KUBERNETES])
  {
    hide HasCAs, NoSuperAdmin, Inv, Chain;
    forall t: Tree, u: Tree | NoSuperAdmin(t) && u.Items <= t.Items ensures NoSuperAdmin(u) {
      FewerNoSuperAdmin(t, u);
    }
    forall k | 0 <= k < |run| - 1 ensures WritersKeep(NoSuperAdmin, run[k], run[k + 1]) {
      assert ClusterGuarded(run[k], run[k + 1]);
      SizesHold(run, k);
      SizesHold(run, k + 1);
      WritersGuarded(run[k], run[k + 1]);
    }
    KubernetesTreeProperty(NoSuperAdmin, run, i);
    SizesHold(run, i);
    RunInv(run, i);
    BackupSizes(run[i]);
  }

  lemma FewerNoSuperAdmin(t: Tree, u: Tree)
    requires NoSuperAdmin(t) && u.Items <= t.Items
    ensures NoSuperAdmin(u)
  {
    hide Sub;
    if Exists(u, ["super-admin.conf"]) {
      SubOfFewer(t, u, ["super-admin.conf"]);
    }
  }

  /** So wherever a marked node is rebooted for a restore, the restore can complete. */
  lemma RetryCompletes(run: seq<State>, i: nat, n: string) returns (seg: seq<State>)
    requires GuardedRun(run) && i < |run| && HasCAs(run[0].store.live[KUBERNETES])
    requires var s := run[i];
             && s.pc.Idle? && s.env.ostree && !s.env.kubelet && s.store.marker && s.env.deployment != ""
             && Newest(s.store, n) && DeployOf(n) == s.env.deployment
    ensures |seg| > 0 && seg[0] == run[i] && Chain(seg)
    ensures seg[|seg| - 1].pc.Checked? && Converged(run[i], n, seg[|seg| - 1]) && !seg[|seg| - 1].store.marker
  {
    hide HasCAs, NoSuperAdmin, Inv, Chain, DeployOf;
    CAsAlwaysThere(run, i);
    RunInv(run, i);
    BackupSizes(run[i]);
    seg := AttemptCompletes(run[i], n, run[i]);
  }

  // ---- init and boot as the node sees them ----

  /** A boot's log, from the moment `n` at which it began, is a piece of a run of the
      node over inits, boots and resets. */
  lemma BootIsANodeRun(l: Layout, log: seq<Moment>, n: nat, containers: bool) returns (run: seq<Teardown.Node>)
    requires 0 < n && Grounded(l, log, n)
    ensures |run| == |log| - n + 1 && run[0] == Teardown.Node(log[n - 1].fs, Teardown.NoProcess, log[n - 1].mark.env.kubelet, containers)
    ensures forall i | 0 <= i < |run| :: run[i].fs == log[n - 1 + i].fs && run[i].kubelet == log[n - 1 + i].mark.env.kubelet
    ensures Teardown.Stepwise(l, run)
  {
    hide Sub, Exists;
    var fss := seq(|log| - n + 1, i requires 0 <= i < |log| - n + 1 => log[n - 1 + i].fs);
    var kubelet := seq(|log| - n + 1, i requires 0 <= i < |log| - n + 1 => log[n - 1 + i].mark.env.kubelet);
    forall i | 0 <= i < |fss| - 1 ensures Teardown.Keeps(l, fss[i], fss[i + 1], kubelet[i], kubelet[i + 1]) {
      DirIsRoot(fss[i], l.picoKubeVarDir);
      DirIsRoot(fss[i + 1], l.picoKubeVarDir);
      assert n <= n + i < |log|;
    }
    run := Teardown.ProcessIsSteps(l, fss, kubelet, containers);
  }

  /** So is an init's log. Kubelet is started at moment `start`, once the first
      directory is there. */
  lemma InitIsANodeRun(l: Layout, log: seq<Tree>, start: nat, containers: bool) returns (run: seq<Teardown.Node>)
    requires |log| > 0 && start > 1
    requires forall i | 0 < i < |log| :: log[i] == log[i - 1] || [] in Sub(log[i], l.picoKubeVarDir)
    requires start < |log| ==> [] in Sub(log[start - 1], l.picoKubeVarDir) && [] in Sub(log[start], l.picoKubeVarDir)
    ensures |run| == |log| && run[0] == Teardown.Node(log[0], Teardown.NoProcess, false, containers)
    ensures forall i | 0 <= i < |run| :: run[i].fs == log[i] && run[i].kubelet == (start <= i)
    ensures Teardown.Stepwise(l, run)
  {
    hide Sub, Exists;
    var kubelet := seq(|log|, i requires 0 <= i < |log| => start <= i);
    forall i | 0 <= i < |log| - 1 ensures Teardown.Keeps(l, log[i], log[i + 1], kubelet[i], kubelet[i + 1]) {
      DirIsRoot(log[i], l.picoKubeVarDir);
      DirIsRoot(log[i + 1], l.picoKubeVarDir);
      assert log[i + 1] == log[i + 1 - 1] || [] in Sub(log[i + 1], l.picoKubeVarDir);
    }
    run := Teardown.ProcessIsSteps(l, log, kubelet, containers);
  }
}
