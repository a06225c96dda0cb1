/** When a backup holds what its boot left, over all runs: what must have happened
    between that boot and the snapshot for it to hold anything else. */
module Fidelity {
  import opened Types
  import opened Trees
  import opened Names
  import opened Pki
  import opened Protocol
  import opened Invariant
  import opened Theorems

  /** Last-boot names a boot whose trees may yet be snapshotted, and have not been. */
  predicate Unsaved(s: State) {
    && s.store.lastBoot.Some? && s.store.lastBoot.value.deploymentID != ""
    && Name(s.store.lastBoot.value) !in s.store.backups
  }

  /** The gate lets a boot go on to reconcile over the unsaved trees of an earlier one. */
  ghost predicate SkipsUnsaved(s: State, t: State) {
    SnapshotSkipped(s, t) && Unsaved(s) && s.store.lastBoot.value.bootID != s.env.bootID
  }

  /** A restore has begun over unsaved trees and is given up: an attempt returns an
      error and clears the marker, or a boot finds nothing to restore and goes on. */
  ghost predicate Forsakes(s: State, t: State) {
    s.hist.tainted && Unsaved(s) && (Abandons(s, t) || NothingToRestore(s, t))
  }

  /** The backup of the last recorded boot is pruned, its deployment being unlisted. */
  ghost predicate DropsBaseline(s: State, t: State) {
    PruneOne(s, t) && !Unsaved(s) && Unsaved(t)
  }

  /** The trees that last-boot names may no longer be what that boot left. */
  ghost predicate Overwrites(s: State, t: State) {
    SkipsUnsaved(s, t) || Forsakes(s, t) || DropsBaseline(s, t)
  }

  /** That has happened on the way to moment `i`, and last-boot has not changed since. */
  ghost predicate Overwritten(run: seq<State>, i: nat)
    requires i < |run|
  {
    exists k: nat | k < i :: OverwrittenAt(run, k, i)
  }

  ghost predicate OverwrittenAt(run: seq<State>, k: nat, i: nat)
    requires k < i < |run|
  {
    Overwrites(run[k], run[k + 1]) && forall h | k < h <= i :: run[h].store.lastBoot == run[i].store.lastBoot
  }

  /** A restore has begun over unsaved trees and will be retried. */
  ghost predicate Retrying(s: State) {
    s.env.ostree && s.store.marker && (s.pc.Idle? || s.pc.Booting? || s.pc.Restoring? || s.pc.Restored?)
  }

  /** Taint over unsaved trees is a restore that will be retried. */
  ghost predicate OnlyRetried(s: State) {
    s.hist.tainted && Unsaved(s) ==> Retrying(s)
  }

  lemma RestoreKeepsRetried(s: State, t: State)
    requires Inv(s) && OnlyRetried(s) && RestoreStep(s, t) && !Overwrites(s, t)
    ensures OnlyRetried(t)
  {
    hide DeployOf, Name, Newest, BackupsOk, BaselineNewest, Quiescent, Faithful, Pristine, SkipTaints, HasCAs, Swept, BackedUp;
  }

  lemma SnapshotKeepsRetried(s: State, t: State)
    requires Inv(s) && OnlyRetried(s) && SnapshotStep(s, t) && !Overwrites(s, t)
    ensures OnlyRetried(t)
  {
    hide DeployOf, Name, BackupsOk, BaselineNewest, Quiescent, Faithful, Pristine, SkipTaints;
  }

  lemma TailKeepsRetried(s: State, t: State)
    requires Inv(s) && OnlyRetried(s) && TailStep(s, t) && !Overwrites(s, t)
    ensures OnlyRetried(t)
  {
    hide DeployOf, Name, BackupsOk, BaselineNewest, Quiescent, Faithful, Pristine, SkipTaints, Guarded;
  }

  lemma SystemKeepsRetried(s: State, t: State)
    requires OnlyRetried(s) && SystemStep(s, t)
    ensures OnlyRetried(t)
  {
    hide Name, GoodBootID;
  }

  lemma StepKeepsRetried(s: State, t: State)
    requires Inv(s) && OnlyRetried(s) && Next(s, t) && !Overwrites(s, t)
    ensures OnlyRetried(t)
  {
    hide Inv, OnlyRetried, SystemStep, RestoreStep, SnapshotStep, TailStep, Overwrites;
    if SystemStep(s, t) {
      SystemKeepsRetried(s, t);
    } else if RestoreStep(s, t) {
      RestoreKeepsRetried(s, t);
    } else if SnapshotStep(s, t) {
      SnapshotKeepsRetried(s, t);
    } else {
      TailKeepsRetried(s, t);
    }
  }

  /** Whoever changes last-boot clears the taint; only a snapshot taken while tainted
      comes under suspicion, and what is being copied is not saved yet. */
  lemma TaintAndSuspicion(s: State, t: State)
    requires Inv(s) && Next(s, t)
    ensures t.store.lastBoot != s.store.lastBoot ==> !t.hist.tainted
    ensures forall n | n in t.hist.suspect && n !in s.hist.suspect ::
              Reveal(s, t) && n == Name(s.pc.prev) && s.hist.tainted && Unsaved(s) && !Retrying(s)
  {
    hide DeployOf, Name, BackupsOk, BaselineNewest, Quiescent, Faithful, Pristine, SkipTaints, HasCAs, Swept, Guarded;
  }

  /** A backup under suspicion was revealed after its trees had been overwritten. */
  ghost predicate RevealedLate(run: seq<State>, i: nat, n: string)
    requires i < |run|
  {
    exists m: nat | m < i :: Reveal(run[m], run[m + 1]) && n == Name(run[m].pc.prev) && Overwritten(run, m)
  }

  lemma {:induction false} SuspicionHasACause(run: seq<State>, i: nat)
    requires Run(run) && i < |run|
    ensures OnlyRetried(run[i]) || Overwritten(run, i)
    ensures forall n | n in run[i].hist.suspect :: RevealedLate(run, i, n)
  {
    hide Next, Inv, Chain, OnlyRetried, Overwrites, Reveal, Unsaved, Retrying, Overwritten, RevealedLate;
    if i == 0 {
      StartsClean(run[0]);
    } else {
      SuspicionHasACause(run, i - 1);
      RunInv(run, i - 1);
      ChainStep(run, i);
      TaintAndSuspicion(run[i - 1], run[i]);
      StillOverwritten(run, i);
      forall n | n in run[i].hist.suspect ensures RevealedLate(run, i, n) {
        if n in run[i - 1].hist.suspect {
          StillLate(run, i, n);
        } else {
          NotRetried(run[i - 1]);
          NowLate(run, i, n);
        }
      }
    }
  }

  lemma StartsClean(s: State)
    requires Init(s)
    ensures OnlyRetried(s) && s.hist.suspect == {}
  {}

  lemma NotRetried(s: State)
    requires s.hist.tainted && Unsaved(s) && !Retrying(s)
    ensures !OnlyRetried(s)
  {}

  lemma StillOverwritten(run: seq<State>, i: nat)
    requires 0 < i < |run| && Inv(run[i - 1]) && Next(run[i - 1], run[i])
    requires OnlyRetried(run[i - 1]) || Overwritten(run, i - 1)
    requires run[i].store.lastBoot != run[i - 1].store.lastBoot ==> !run[i].hist.tainted
    ensures OnlyRetried(run[i]) || Overwritten(run, i)
  {
    hide Next, Inv, Overwrites, Unsaved, Retrying;
    if Overwrites(run[i - 1], run[i]) {
      assert OverwrittenAt(run, i - 1, i);
    } else if OnlyRetried(run[i - 1]) {
      StepKeepsRetried(run[i - 1], run[i]);
    } else if run[i].store.lastBoot == run[i - 1].store.lastBoot {
      var k: nat :| k < i - 1 && OverwrittenAt(run, k, i - 1);
      assert OverwrittenAt(run, k, i);
    }
  }

  lemma StillLate(run: seq<State>, i: nat, n: string)
    requires 0 < i < |run| && RevealedLate(run, i - 1, n)
    ensures RevealedLate(run, i, n)
  {
    hide Reveal, Overwritten;
  }

  lemma NowLate(run: seq<State>, i: nat, n: string)
    requires 0 < i < |run| && Reveal(run[i - 1], run[i]) && n == Name(run[i - 1].pc.prev) && Overwritten(run, i - 1)
    ensures RevealedLate(run, i, n)
  {
    hide Reveal, Overwritten;
    assert Reveal(run[i - 1], run[i - 1 + 1]);
  }

  /** Fidelity, over every run: deployments coming and going, processes dying, boots
      failing, restores repeating, last-boot writes lost. The backup named `d_b` holds
      the covered trees as kernel boot `b` left them, but for files of a write probe
      that died; or it was revealed after a boot had gone on over those trees before
      they were saved, a restore begun over them had been given up, or an earlier
      backup of them had been pruned, and with last-boot naming `b` ever since. */
  lemma FaithfulUnlessOverwritten(run: seq<State>, i: nat, n: string)
    requires Run(run) && i < |run| && n in run[i].store.backups
    ensures var b := run[i].store.backups[n];
            && b.meta.Some? && n == Name(b.meta.value)
            && (RevealedLate(run, i, n)
                || (b.meta.value.bootID in run[i].hist.left && Alike(b.content, run[i].hist.left[b.meta.value.bootID])))
  {
    hide Next, Chain, RevealedLate, Overwritten;
    RunInv(run, i);
    SuspicionHasACause(run, i);
    assert BackupOk(run[i], n);
  }

  // ---- one deployment ----

  /** No deployment switch, and no restore abandoned once one has begun. */
  ghost predicate Calm(s: State, t: State) {
    t.env.deployment == s.env.deployment && !(s.hist.tainted && Abandons(s, t))
  }

  ghost predicate CalmRun(run: seq<State>) {
    Run(run) && run[0].env.ostree && run[0].env.deployment != ""
    && forall i | 0 <= i < |run| - 1 :: Calm(run[i], run[i + 1])
  }

  /** In a calm run taint means a restore is under way and will be retried. */
  ghost predicate CalmInv(s: State) {
    && s.env.ostree && s.env.deployment != ""
    && (s.store.lastBoot.Some? ==> s.store.lastBoot.value.deploymentID == s.env.deployment)
    && (s.hist.tainted ==>
          && s.store.marker && BackedUp(s.store, s.env.deployment)
          && (s.pc.Idle? || s.pc.Booting? || s.pc.Restoring? || s.pc.Restored?))
  }

  lemma CalmRecord(s: State, t: State)
    requires Inv(s) && CalmInv(s) && Record(s, t)
    ensures CalmInv(t)
  {
    hide DeployOf, BaselineNewest, Quiescent, Faithful, Pristine, SkipTaints;
    assert BackupOk(s, s.pc.name);
    DeployOfName(s.store.backups[s.pc.name].meta.value);
  }

  lemma CalmRestoreStep(s: State, t: State)
    requires Inv(s) && CalmInv(s) && RestoreStep(s, t) && Calm(s, t)
    ensures CalmInv(t)
  {
    hide DeployOf, Name, BackupsOk, BaselineNewest, Quiescent, Faithful, Pristine, SkipTaints, HasCAs, Swept, Record;
    if Record(s, t) {
      CalmRecord(s, t);
    }
  }

  lemma CalmSnapshotStep(s: State, t: State)
    requires Inv(s) && CalmInv(s) && SnapshotStep(s, t)
    ensures CalmInv(t)
  {
    hide HasCAs, NoSuperAdmin, Swept, Guarded;
  }

  lemma CalmTailStep(s: State, t: State)
    requires Inv(s) && CalmInv(s) && TailStep(s, t)
    ensures CalmInv(t)
  {
    hide DeployOf, BackupsOk, BaselineNewest, Quiescent, Faithful, Pristine, HasCAs, NoSuperAdmin, Swept, Guarded;
  }

  lemma CalmSystemStep(s: State, t: State)
    requires Inv(s) && CalmInv(s) && SystemStep(s, t) && Calm(s, t)
    ensures CalmInv(t)
  {
    hide DeployOf, BackupsOk, BaselineNewest, Quiescent, Faithful, Pristine, SkipTaints, HasCAs, NoSuperAdmin, Swept, Guarded;
  }

  lemma CalmKeepsInv(s: State, t: State)
    requires Inv(s) && CalmInv(s) && Next(s, t) && Calm(s, t)
    ensures CalmInv(t)
  {
    hide Inv, CalmInv, SystemStep, RestoreStep, SnapshotStep, TailStep, Calm;
    if SystemStep(s, t) {
      CalmSystemStep(s, t);
    } else if RestoreStep(s, t) {
      CalmRestoreStep(s, t);
    } else if SnapshotStep(s, t) {
      CalmSnapshotStep(s, t);
    } else {
      CalmTailStep(s, t);
    }
  }

  lemma {:induction false} CalmRunInv(run: seq<State>, i: nat)
    requires CalmRun(run) && i < |run|
    ensures CalmInv(run[i])
  {
    hide Next, Inv, Chain, Calm;
    if i > 0 {
      CalmRunInv(run, i - 1);
      RunInv(run, i - 1);
      ChainStep(run, i);
      assert Calm(run[i - 1], run[i - 1 + 1]);
      CalmKeepsInv(run[i - 1], run[i]);
    }
  }

  lemma CalmPruneStep(s: State, t: State)
    requires Inv(s) && CalmInv(s) && PruneOne(s, t)
    ensures Unsaved(t) ==> Unsaved(s)
  {
    hide DeployOf, Name, BackupsOk, Quiescent, Faithful, Pristine, SkipTaints;
    if s.store.lastBoot.Some? && Name(s.store.lastBoot.value) in s.store.backups {
      DeployOfName(s.store.lastBoot.value);
      PruneKeepsDeployment(s, t, s.env.deployment);
    }
  }

  lemma CalmOverwritesNothing(s: State, t: State)
    requires Inv(s) && CalmInv(s) && Calm(s, t)
    ensures !Overwrites(s, t)
  {
    hide DeployOf, Name, BackupsOk, BaselineNewest, Quiescent, Faithful, Pristine, SkipTaints, Swept, HasCAs, PruneOne;
    if PruneOne(s, t) {
      CalmPruneStep(s, t);
    }
  }

  /** So in a calm run nothing is overwritten: every backup is faithful. */
  lemma SnapshotFidelity(run: seq<State>, i: nat, n: string)
    requires CalmRun(run) && i < |run| && n in run[i].store.backups
    ensures var b := run[i].store.backups[n];
            && b.meta.Some? && n == Name(b.meta.value)
            && b.meta.value.bootID in run[i].hist.left
            && Alike(b.content, run[i].hist.left[b.meta.value.bootID])
  {
    hide Next, Chain, Inv, Calm, CalmInv, Overwrites, Alike, Init, Reveal;
    FaithfulUnlessOverwritten(run, i, n);
    forall k: nat | k < |run| - 1 ensures !Overwrites(run[k], run[k + 1]) {
      RunInv(run, k);
      CalmRunInv(run, k);
      assert Calm(run[k], run[k + 1]);
      CalmOverwritesNothing(run[k], run[k + 1]);
    }
  }
}
