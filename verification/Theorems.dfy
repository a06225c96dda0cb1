/** What the boot protocol guarantees over whole runs: process death, reboots,
    failed boots, restores, prunes and lost last-boot writes in any order. */
module Theorems {
  import opened Types
  import opened Trees
  import opened Names
  import opened Pki
  import opened Protocol
  import opened Invariant

  lemma ChainStep(run: seq<State>, i: nat)
    requires Chain(run) && 0 < i < |run|
    ensures Next(run[i - 1], run[i])
  {
    assert Next(run[i - 1], run[i - 1 + 1]);
  }

  /** Every state of a run satisfies the invariant. */
  lemma {:induction false} RunInv(run: seq<State>, i: nat)
    requires Run(run) && i < |run|
    ensures Inv(run[i])
  {
    if i == 0 {
      InitInv(run[0]);
    } else {
      RunInv(run, i - 1);
      ChainStep(run, i);
      NextKeepsInv(run[i - 1], run[i]);
    }
  }

  /** Snapshots are quiescent: while a snapshot is being copied kubelet has not been
      started in this kernel boot, and the revealed backup is the live data of one
      instant, however the copies interleave with everything else. */
  lemma SnapshotQuiescence(run: seq<State>, i: nat)
    requires Run(run) && i < |run|
    ensures run[i].pc.Copying? ==> !run[i].env.kubelet
    ensures i + 1 < |run| && Reveal(run[i], run[i + 1]) ==>
              run[i + 1].store.backups[Name(run[i].pc.prev)].content == run[i].store.live
  {
    RunInv(run, i);
  }

  /** The backup behind the current baseline is the newest of its deployment, so a
      prune in that deployment keeps it and a restore retry picks it again. */
  lemma BaselineStaysNewest(run: seq<State>, i: nat)
    requires Run(run) && i < |run|
    requires run[i].store.lastBoot.Some? && Name(run[i].store.lastBoot.value) in run[i].store.backups
    ensures Newest(run[i].store, Name(run[i].store.lastBoot.value))
    ensures i + 1 < |run| && PruneOne(run[i], run[i + 1]) && run[i].store.lastBoot.value.deploymentID in run[i].pc.listed ==>
              Name(run[i].store.lastBoot.value) in run[i + 1].store.backups
  {
    RunInv(run, i);
    DeployOfName(run[i].store.lastBoot.value);
  }

  // ---- backups are never rewritten, mislabelled or lost ----

  /** A step changes the set of backups only: it adds the one the snapshot gate
      named, or removes one. No step rewrites a backup. */
  lemma BackupsChangeByOne(s: State, t: State)
    requires Inv(s) && Next(s, t)
    ensures forall n | n in s.store.backups && n in t.store.backups :: t.store.backups[n] == s.store.backups[n]
    ensures forall n | n in t.store.backups && n !in s.store.backups ::
              && s.env.ostree && s.store.lastBoot.Some? && n == Name(s.store.lastBoot.value)
              && DeployOf(n) == s.env.deployment && !s.env.kubelet
    ensures forall d | BackedUp(s.store, d) && !BackedUp(t.store, d) :: s.pc.Pruning? && d !in s.pc.listed
  {
    hide BaselineNewest, Faithful, Pristine, SkipTaints, BackupsOk, DeployOf, HasCAs, NoSuperAdmin, Swept, Guarded;
    if Reveal(s, t) {
      DeployOfName(s.pc.prev);
      forall d | BackedUp(s.store, d) ensures BackedUp(t.store, d) {
        var n :| n in s.store.backups && DeployOf(n) == d;
        assert n in t.store.backups;
      }
    } else if PruneOne(s, t) {
      forall d | BackedUp(s.store, d) && d in s.pc.listed ensures BackedUp(t.store, d) {
        PruneKeepsDeployment(s, t, d);
      }
    } else {
      assert t.store.backups == s.store.backups;
      forall d | BackedUp(s.store, d) ensures BackedUp(t.store, d) {
        var n :| n in s.store.backups && DeployOf(n) == d;
        assert n in t.store.backups;
      }
    }
  }

  /** One removal never takes the last backup of a listed deployment, and leaves
      the backup `LatestForDeployment` picks. */
  lemma PruneKeepsDeployment(s: State, t: State, d: string)
    requires PruneOne(s, t) && d in s.pc.listed
    ensures BackedUp(s.store, d) ==> BackedUp(t.store, d)
    ensures forall n | DeployOf(n) == d && Newest(s.store, n) :: Newest(t.store, n)
  {
    hide DeployOf, HasCAs, NoSuperAdmin, Swept, Guarded;
    var n :| n in s.store.backups && t.store.backups == s.store.backups - {n}
             && (DeployOf(n) in s.pc.listed ==> exists m | m in s.store.backups ::
                   DeployOf(m) == DeployOf(n) && s.store.backups[n].mtime < s.store.backups[m].mtime);
    if BackedUp(s.store, d) {
      var k :| k in s.store.backups && DeployOf(k) == d;
      if k == n {
        var m :| m in s.store.backups && DeployOf(m) == d && s.store.backups[n].mtime < s.store.backups[m].mtime;
        assert m in t.store.backups;
      } else {
        assert k in t.store.backups;
      }
    }
  }

  lemma RollbackStep(s: State, t: State, d: string)
    requires Inv(s) && Next(s, t) && BackedUp(s.store, d) && (s.pc.Pruning? ==> d in s.pc.listed)
    ensures BackedUp(t.store, d)
  {
    hide Next, Inv;
    BackupsChangeByOne(s, t);
  }

  /** A prune that is under way has listed `d`, when it starts while `d` is listed. */
  lemma {:induction false} PruneHasListed(run: seq<State>, d: string, i: nat, j: nat)
    requires Run(run) && i <= j < |run| && (run[i].pc.Pruning? ==> d in run[i].pc.listed)
    requires forall k | i <= k <= j :: d in run[k].env.known
    ensures run[j].pc.Pruning? ==> d in run[j].pc.listed
  {
    hide HasCAs, NoSuperAdmin, Swept, Guarded;
    if i < j {
      PruneHasListed(run, d, i, j - 1);
      ChainStep(run, j);
    }
  }

  /** Rollback stays possible: once deployment `d` has a backup it has one for as
      long as the system lists `d`, whenever it was that `d` was installed. A prune
      caught in the middle must have listed it too. */
  lemma {:induction false} RollbackStaysAvailable(run: seq<State>, d: string, i: nat, j: nat)
    requires Run(run) && i <= j < |run|
    requires forall k | i <= k <= j :: d in run[k].env.known
    requires BackedUp(run[i].store, d) && (run[i].pc.Pruning? ==> d in run[i].pc.listed)
    ensures BackedUp(run[j].store, d)
  {
    hide Next, BackedUp, Inv, Init, Chain;
    if i < j {
      RollbackStaysAvailable(run, d, i, j - 1);
      PruneHasListed(run, d, i, j - 1);
      RunInv(run, j - 1);
      ChainStep(run, j);
      RollbackStep(run[j - 1], run[j], d);
    }
  }

  // ---- restore converges ----

  /** The attempt returns an error and its deferred clear removes the marker. */
  ghost predicate Abandons(s: State, t: State) {
    GiveUp(s, t) && s.store.marker && !t.store.marker
  }

  /** No deployment switch, and no attempt abandoned. */
  ghost predicate Retried(s: State, t: State) {
    t.env.deployment == s.env.deployment && !Abandons(s, t)
  }

  /** What holds from the marked boot until `maybeRestore` completes. */
  ghost predicate Converging(o: State, n: string, s: State) {
    && s.env.ostree && s.env.deployment == o.env.deployment != "" && !s.env.kubelet
    && s.store.backups == o.store.backups && s.store.marker
    && Newest(s.store, n) && DeployOf(n) == s.env.deployment
    && |s.store.backups[n].content| == |s.store.live| == PARTS
    && match s.pc
       case Idle => true
       case Booting => true
       case Restoring(m, k) => m == n && k <= PARTS && s.store.live[..k] == s.store.backups[n].content[..k]
       case Restored(m) => m == n && s.store.live == s.store.backups[n].content
       case Recorded(m) => m == n && s.store.live == s.store.backups[n].content && s.store.lastBoot == s.store.backups[n].meta
       case _ => false
  }

  /** `maybeRestore` has completed with backup `n`. */
  ghost predicate Converged(o: State, n: string, s: State) {
    && n in o.store.backups
    && s.store.backups == o.store.backups
    && s.store.live == o.store.backups[n].content
    && s.store.lastBoot == o.store.backups[n].meta
    && !s.env.kubelet
  }

  lemma ConvergingRestoreStep(o: State, n: string, s: State, t: State)
    requires Inv(s) && Converging(o, n, s) && RestoreStep(s, t) && Retried(s, t)
    ensures if t.pc.Checked? then Converged(o, n, t) else Converging(o, n, t)
  {
    hide DeployOf, BaselineNewest, Quiescent, Faithful, Pristine, SkipTaints, HostOk, HasCAs, NoSuperAdmin, Swept, Guarded;
    assert BackedUp(s.store, s.env.deployment);
    if Choose(s, t) {
      assert t.pc.name == n;
      assert t.store.live[..0] == t.store.backups[n].content[..0];
    } else if RestorePart(s, t) {
      var k := s.pc.done;
      assert t.store.live[..k + 1] == s.store.live[..k] + [s.store.backups[n].content[k]];
      assert s.store.backups[n].content[..k + 1] == s.store.backups[n].content[..k] + [s.store.backups[n].content[k]];
    } else if RestoreTorn(s, t) {
      assert t.store.live[..s.pc.done] == s.store.live[..s.pc.done];
    } else if RestoreDone(s, t) {
      assert s.store.live == s.store.live[..PARTS] == s.store.backups[n].content[..PARTS] == s.store.backups[n].content;
    }
  }

  lemma ConvergingStep(o: State, n: string, s: State, t: State)
    requires Inv(s) && Converging(o, n, s) && Next(s, t) && Retried(s, t)
    ensures if t.pc.Checked? then Converged(o, n, t) else Converging(o, n, t)
  {
    hide RestoreStep, SystemStep, SnapshotStep, TailStep, Converging, Converged, Inv, Retried;
    OnlyRestoreOrSystem(o, n, s, t);
    if RestoreStep(s, t) {
      ConvergingRestoreStep(o, n, s, t);
    } else {
      ConvergingSystemStep(o, n, s, t);
    }
  }

  lemma OnlyRestoreOrSystem(o: State, n: string, s: State, t: State)
    requires Converging(o, n, s)
    ensures !SnapshotStep(s, t) && !TailStep(s, t)
  {
    hide DeployOf, Newest;
  }

  lemma ConvergingSystemStep(o: State, n: string, s: State, t: State)
    requires Converging(o, n, s) && SystemStep(s, t) && Retried(s, t)
    ensures !t.pc.Checked? && Converging(o, n, t)
  {
    hide DeployOf;
  }

  lemma SnapshotAfterRestore(o: State, n: string, s: State, t: State)
    requires Inv(s) && s.pc.Checked? && Converged(o, n, s) && Next(s, t)
    ensures !t.pc.Copying?
  {
    hide BaselineNewest, Quiescent, PcOk, Faithful, Pristine, SkipTaints, HostOk, DeployOf, HasCAs, NoSuperAdmin, Swept, Guarded;
    assert BackupOk(s, n);
  }

  /** Restore converges: start before kubelet with the marker set and `n` the newest
      backup of the booted deployment. Whatever deaths and reboots follow, the first
      time `maybeRestore` completes the live trees equal that backup, last-boot is
      its metadata and the backups are unchanged; by `SnapshotAfterRestore` the
      snapshot that follows in the same boot finds its backup already there. */
  lemma {:induction false} RestoreConverges(o: State, n: string, seg: seq<State>, j: nat)
    requires j < |seg| && seg[0] == o && Inv(o) && Chain(seg)
    requires forall i | 0 <= i < |seg| - 1 :: Retried(seg[i], seg[i + 1])
    requires o.pc.Idle? && o.env.ostree && !o.env.kubelet && o.store.marker && o.env.deployment != ""
    requires Newest(o.store, n) && DeployOf(n) == o.env.deployment
    requires forall i | 0 <= i < j :: !seg[i].pc.Checked?
    ensures Inv(seg[j])
    ensures if seg[j].pc.Checked? then Converged(o, n, seg[j]) else Converging(o, n, seg[j])
  {
    if j == 0 {
      assert BackupOk(o, n);
    } else {
      RestoreConverges(o, n, seg, j - 1);
      ChainStep(seg, j);
      assert Retried(seg[j - 1], seg[j - 1 + 1]);
      ConvergingStep(o, n, seg[j - 1], seg[j]);
      NextKeepsInv(seg[j - 1], seg[j]);
    }
  }

  /** And an attempt nothing interrupts does complete, from any state a death or
      reboot can leave that passes the preflight on the CA certificates. */
  lemma AttemptCompletes(o: State, n: string, s: State) returns (seg: seq<State>)
    requires Inv(s) && Converging(o, n, s) && s.pc.Idle? && HasCAs(s.store.live[KUBERNETES])
    ensures |seg| > 0 && seg[0] == s && Chain(seg)
    ensures seg[|seg| - 1].pc.Checked? && Converged(o, n, seg[|seg| - 1]) && !seg[|seg| - 1].store.marker
  {
    hide DeployOf, BaselineNewest, Quiescent, PcOk, Faithful, Pristine, SkipTaints, HasCAs, NoSuperAdmin, Swept, Guarded;
    assert BackupOk(s, n);
    var c := s.store.backups[n].content;
    var s1 := s.To(Booting);
    var s2 := s1.(pc := Restoring(n, 0), hist := s.hist.(tainted := true));
    assert Begin(s, s1) && Choose(s1, s2);
    seg := [s, s1, s2];
    var k := 0;
    while k < PARTS
      invariant 0 <= k <= PARTS && |seg| > 0 && seg[0] == s && Chain(seg)
      invariant var z := seg[|seg| - 1];
                z == s2.(store := z.store, pc := Restoring(n, k)) && z.store == s.store.(live := z.store.live)
      invariant |seg[|seg| - 1].store.live| == PARTS && seg[|seg| - 1].store.live[..k] == c[..k]
    {
      var z := seg[|seg| - 1];
      var z' := z.Live(z.store.live[k := c[k]], z.store.clock).To(Restoring(n, k + 1));
      assert RestorePart(z, z');
      assert z'.store.live[..k + 1] == z.store.live[..k] + [c[k]] && c[..k + 1] == c[..k] + [c[k]];
      ChainExtends(seg, z');
      seg := seg + [z'];
      k := k + 1;
    }
    var z := seg[|seg| - 1];
    assert z.store.live == z.store.live[..PARTS] && c == c[..PARTS];
    var r1 := z.To(Restored(n));
    var r2 := r1.(store := r1.store.(lastBoot := r1.store.backups[n].meta), pc := Recorded(n), hist := r1.hist.(tainted := false));
    var r3 := r2.(store := r2.store.(marker := false), pc := Checked);
    assert RestoreDone(z, r1) && Record(r1, r2) && ClearMarker(r2, r3);
    ChainExtends(seg, r1);
    ChainExtends(seg + [r1], r2);
    ChainExtends(seg + [r1] + [r2], r3);
    seg := seg + [r1] + [r2] + [r3];
  }

  lemma ChainExtends(seg: seq<State>, t: State)
    requires |seg| > 0 && Chain(seg) && Next(seg[|seg| - 1], t)
    ensures Chain(seg + [t])
  {
    var x := seg + [t];
    forall i | 0 <= i < |x| - 1 ensures Next(x[i], x[i + 1]) {
      if i < |seg| - 1 {
        assert Next(seg[i], seg[i + 1]);
      }
    }
  }

  // ---- a restore that returns an error ----

  /** What holds from such an attempt, which left `o`, until `maybeRestore` next
      completes with the marker still clear. */
  ghost predicate Abandoned(o: State, s: State) {
    && !s.store.marker && !s.env.kubelet && |o.store.live| == |s.store.live| == PARTS
    && s.store.lastBoot == o.store.lastBoot && s.store.backups == o.store.backups
    && match s.pc
       case Idle => Alike(s.store.live, o.store.live) || Stuck(s)
       case Booting => Alike(s.store.live, o.store.live)
       case Checked => Alike(s.store.live, o.store.live)
       case _ => false
  }

  lemma AbandonedProbe(o: State, s: State, t: State)
    requires Abandoned(o, s) && WriteProbe(s, t)
    ensures Abandoned(o, t)
  {
    hide Swept, HasCAs;
    BareHasNoCAs();
    if Swept(t.store.live[KUBERNETES]) == Swept(s.store.live[KUBERNETES]) {
      SweptGuards(s.store.live[KUBERNETES], t.store.live[KUBERNETES]);
    }
  }

  lemma AbandonedStep(o: State, s: State, t: State)
    requires Abandoned(o, s) && !s.pc.Checked? && Next(s, t) && !t.store.marker
    ensures Abandoned(o, t)
  {
    hide Swept, HasCAs, DeployOf, NoSuperAdmin;
    if WriteProbe(s, t) {
      AbandonedProbe(o, s, t);
    }
  }

  /** After a restore that returned an error and cleared the marker, and until the
      marker is placed again, whatever dies or reboots into whatever deployment: the
      next completed `maybeRestore` hands on the live trees and the last-boot record
      just as the failed attempt left them. */
  lemma {:induction false} AbandonedRestoreStays(seg: seq<State>, j: nat)
    requires j < |seg| && Chain(seg) && Inv(seg[0]) && seg[0].pc.Idle? && !seg[0].env.kubelet
    requires forall i | 0 <= i <= j :: !seg[i].store.marker
    requires forall i | 0 <= i < j :: !seg[i].pc.Checked?
    ensures Abandoned(seg[0], seg[j])
  {
    hide Next;
    if j > 0 {
      AbandonedRestoreStays(seg, j - 1);
      ChainStep(seg, j);
      AbandonedStep(seg[0], seg[j - 1], seg[j]);
    }
  }

  /** `Converged`, but for files of a write probe. */
  ghost predicate ConvergedButProbes(o: State, n: string, s: State) {
    && n in o.store.backups
    && s.store.backups == o.store.backups
    && Alike(s.store.live, o.store.backups[n].content)
    && s.store.lastBoot == o.store.backups[n].meta
    && !s.env.kubelet
  }

  /** When restoring converges, exactly. From a marked node, on one deployment, let
      `g` be the first attempt that returns an error and clears the marker, if there
      is one before `maybeRestore` first completes at `j`, and let the marker not be
      placed again. Then the completed state holds the backup if and only if no
      attempt did that, or the one that did had already put everything back. */
  lemma RestoreConvergesExactly(o: State, n: string, seg: seq<State>, j: nat, g: nat)
    requires g <= j < |seg| && seg[0] == o && Inv(o) && Chain(seg)
    requires forall i | 0 <= i < g :: Retried(seg[i], seg[i + 1])
    requires o.pc.Idle? && o.env.ostree && !o.env.kubelet && o.store.marker && o.env.deployment != ""
    requires Newest(o.store, n) && DeployOf(n) == o.env.deployment
    requires g < j ==> Abandons(seg[g], seg[g + 1]) && forall i | g < i <= j :: !seg[i].store.marker
    requires seg[j].pc.Checked? && forall i | 0 <= i < j :: !seg[i].pc.Checked?
    ensures ConvergedButProbes(o, n, seg[j]) <==> g == j || ConvergedButProbes(o, n, seg[g + 1])
  {
    hide Next, Inv, Alike, DeployOf, Newest, Chain, Retried;
    var head := seg[..g + 1];
    PrefixChain(seg, g);
    forall i | 0 <= i < |head| - 1 ensures Retried(head[i], head[i + 1]) {
      assert Retried(seg[i], seg[i + 1]);
    }
    assert head[0] == o && forall i | 0 <= i < g :: !head[i].pc.Checked?;
    RestoreConverges(o, n, head, g);
    assert head[g] == seg[g];
    TargetSize(o, n);
    if g == j {
      AlikeSelf(o.store.backups[n].content);
    } else {
      AfterAbandoning(o, n, seg, j, g);
    }
  }

  lemma AlikeSelf(a: seq<Tree>)
    ensures |a| == PARTS ==> Alike(a, a)
  {}

  lemma TargetSize(o: State, n: string)
    requires Inv(o) && Newest(o.store, n)
    ensures n in o.store.backups && |o.store.backups[n].content| == PARTS
  {
    assert BackupOk(o, n);
  }

  lemma PrefixChain(seg: seq<State>, g: nat)
    requires Chain(seg) && g < |seg|
    ensures Chain(seg[..g + 1])
  {
    hide Next;
    var head := seg[..g + 1];
    forall i | 0 <= i < |head| - 1 ensures Next(head[i], head[i + 1]) {
      ChainStep(seg, i + 1);
    }
  }

  lemma SuffixChain(seg: seq<State>, g: nat)
    requires Chain(seg) && g < |seg|
    ensures Chain(seg[g..])
  {
    hide Next;
    var tail := seg[g..];
    forall i | 0 <= i < |tail| - 1 ensures Next(tail[i], tail[i + 1]) {
      ChainStep(seg, g + i + 1);
    }
  }

  lemma AfterAbandoning(o: State, n: string, seg: seq<State>, j: nat, g: nat)
    requires g < j < |seg| && Chain(seg) && Inv(seg[g]) && Converging(o, n, seg[g]) && n in o.store.backups
    requires Abandons(seg[g], seg[g + 1]) && forall i | g < i <= j :: !seg[i].store.marker
    requires seg[j].pc.Checked? && forall i | 0 <= i < j :: !seg[i].pc.Checked?
    ensures ConvergedButProbes(o, n, seg[j]) <==> ConvergedButProbes(o, n, seg[g + 1])
  {
    hide Next, Inv, DeployOf, Newest, Chain, Alike, Converging, Abandons, Abandoned, ConvergedButProbes;
    ChainStep(seg, g + 1);
    NextKeepsInv(seg[g], seg[g + 1]);
    SuffixChain(seg, g + 1);
    HasGivenUp(o, n, seg[g], seg[g + 1]);
    var tail := seg[g + 1..];
    assert forall i | 0 <= i <= j - g - 1 :: tail[i] == seg[g + 1 + i];
    AbandonedRestoreStays(tail, j - g - 1);
    AbandonedIsSame(o, n, seg[g + 1], seg[j]);
  }

  lemma HasGivenUp(o: State, n: string, s: State, t: State)
    requires Converging(o, n, s) && Abandons(s, t)
    ensures t.pc.Idle? && !t.env.kubelet && t.store.backups == o.store.backups
  {
    hide DeployOf, Newest;
  }

  lemma AbandonedIsSame(o: State, n: string, g: State, s: State)
    requires Abandoned(g, s) && s.pc.Checked? && !g.env.kubelet && g.store.backups == o.store.backups
    ensures ConvergedButProbes(o, n, s) <==> ConvergedButProbes(o, n, g)
  {
    hide Swept, HasCAs;
  }

  /** A snapshot takes what is there: when the gate is reached before kubelet and the
      snapshot runs through, the backup holds the live trees of the gate. So it is what
      the previous boot left if and only if those were. */
  lemma {:induction false} SnapshotTakesWhatIsThere(seg: seq<State>, k: nat)
    requires 0 <= k < |seg| && Chain(seg) && Inv(seg[0]) && seg[0].pc.Checked? && !seg[0].env.kubelet
    requires forall i | 0 <= i <= k :: seg[i].pc.Checked? || seg[i].pc.Copying?
    ensures Inv(seg[k]) && !seg[k].env.kubelet
    ensures seg[k].store.live == seg[0].store.live && seg[k].store.lastBoot == seg[0].store.lastBoot
    ensures k + 1 < |seg| && Reveal(seg[k], seg[k + 1]) ==>
              seg[0].store.lastBoot.Some?
              && var n := Name(seg[0].store.lastBoot.value);
                 n in seg[k + 1].store.backups && seg[k + 1].store.backups[n].content == seg[0].store.live
  {
    hide Next;
    if k > 0 {
      SnapshotTakesWhatIsThere(seg, k - 1);
      ChainStep(seg, k);
      TakingStep(seg[k - 1], seg[k]);
    }
    RevealsLive(seg[k]);
  }

  lemma TakingStep(s: State, t: State)
    requires Inv(s) && Next(s, t) && !s.env.kubelet && (s.pc.Checked? || s.pc.Copying?) && (t.pc.Checked? || t.pc.Copying?)
    ensures Inv(t) && !t.env.kubelet && t.store.live == s.store.live && t.store.lastBoot == s.store.lastBoot
  {
    hide Inv, RestoreStep, TailStep;
    NextKeepsInv(s, t);
    NoOtherStep(s, t);
  }

  lemma NoOtherStep(s: State, t: State)
    requires s.pc.Checked? || s.pc.Copying?
    ensures !RestoreStep(s, t) && !TailStep(s, t)
  {
    hide HasCAs, NoSuperAdmin, Swept, Guarded, DeployOf, Newest;
  }

  lemma RevealsLive(s: State)
    requires Inv(s)
    ensures s.pc.Copying? ==> s.store.lastBoot == Some(s.pc.prev) && s.pc.got == s.store.live[..|s.pc.got|]
    ensures s.pc.Copying? && |s.pc.got| == PARTS ==> s.pc.got == s.store.live
  {
    hide BackupsOk, BaselineNewest, Quiescent, Faithful, Pristine, SkipTaints, DeployOf;
  }

  /** So the mixture that a failed restore left is what the next boot backs up under
      the name of the boot it came from. */
  lemma AbandonedRestoreIsBackedUp(seg: seq<State>, j: nat, k: nat)
    requires j <= k && k + 1 < |seg| && Chain(seg) && Inv(seg[0]) && seg[0].pc.Idle? && !seg[0].env.kubelet
    requires forall i | 0 <= i <= j :: !seg[i].store.marker
    requires forall i | 0 <= i < j :: !seg[i].pc.Checked?
    requires seg[j].pc.Checked? && forall i | j <= i <= k :: seg[i].pc.Checked? || seg[i].pc.Copying?
    requires Reveal(seg[k], seg[k + 1])
    ensures seg[0].store.lastBoot.Some?
    ensures var n := Name(seg[0].store.lastBoot.value);
            n in seg[k + 1].store.backups && Alike(seg[k + 1].store.backups[n].content, seg[0].store.live)
  {
    hide Next, Inv, Chain, Reveal, Alike;
    AbandonedRestoreStays(seg, j);
    ChainInv(seg, j);
    SuffixChain(seg, j);
    var tail := seg[j..];
    assert forall i | 0 <= i <= k - j :: tail[i] == seg[j + i];
    assert tail[k - j + 1] == seg[k + 1];
    SnapshotTakesWhatIsThere(tail, k - j);
  }

  lemma {:induction false} ChainInv(seg: seq<State>, j: nat)
    requires j < |seg| && Chain(seg) && Inv(seg[0])
    ensures Inv(seg[j])
  {
    hide Next, Inv;
    if j > 0 {
      ChainInv(seg, j - 1);
      ChainStep(seg, j);
      NextKeepsInv(seg[j - 1], seg[j]);
    }
  }

  // ---- snapshot, then restore ----

  /** As long as a backup is kept it is kept as it was. */
  lemma {:induction false} BackupNeverRewritten(run: seq<State>, n: string, i: nat, j: nat)
    requires Run(run) && i <= j < |run| && forall k | i <= k <= j :: n in run[k].store.backups
    ensures run[j].store.backups[n] == run[i].store.backups[n]
  {
    hide Next, Inv, Chain, Init;
    if i < j {
      BackupNeverRewritten(run, n, i, j - 1);
      RunInv(run, j - 1);
      ChainStep(run, j);
      assert n in run[j - 1].store.backups;
      BackupsChangeByOne(run[j - 1], run[j]);
    }
  }

  /** The snapshot revealed by step `i`, kept until boot `j` finds the marker, comes
      back whole: whatever changed the live trees in between, when `maybeRestore`
      first completes after `j`, at `k`, they equal those the snapshot was taken of,
      absent parts included, and last-boot names the boot it was taken for. */
  lemma SnapshotThenRestore(run: seq<State>, i: nat, j: nat, k: nat, n: string)
    requires Run(run) && i < j <= k < |run| && Reveal(run[i], run[i + 1]) && n == Name(run[i].pc.prev)
    requires forall h | i < h <= j :: n in run[h].store.backups
    requires run[j].pc.Idle? && run[j].env.ostree && !run[j].env.kubelet && run[j].store.marker && run[j].env.deployment != ""
    requires Newest(run[j].store, n) && DeployOf(n) == run[j].env.deployment
    requires forall h | j <= h < k :: Retried(run[h], run[h + 1]) && !run[h].pc.Checked?
    requires run[k].pc.Checked?
    ensures run[k].store.live == run[i].store.live && run[k].store.lastBoot == Some(run[i].pc.prev)
  {
    hide Next, Inv, Chain, Init, Retried, Newest, Reveal, DeployOf;
    RevealedIs(run, i);
    BackupNeverRewritten(run, n, i + 1, j);
    RunInv(run, j);
    var seg := run[j..k + 1];
    Segment(run, j, k);
    forall h | 0 <= h < |seg| - 1 ensures Retried(seg[h], seg[h + 1]) {
      assert Retried(run[j + h], run[j + h + 1]);
    }
    forall h | 0 <= h < k - j ensures !seg[h].pc.Checked? {
      assert !run[j + h].pc.Checked?;
    }
    RestoreConverges(run[j], n, seg, k - j);
  }

  lemma RevealedIs(run: seq<State>, i: nat)
    requires Run(run) && i + 1 < |run| && Reveal(run[i], run[i + 1])
    ensures var n := Name(run[i].pc.prev);
            n in run[i + 1].store.backups && run[i + 1].store.backups[n].meta == Some(run[i].pc.prev)
            && run[i + 1].store.backups[n].content == run[i].store.live
  {
    RunInv(run, i);
  }

  /** A stretch of a run is a chain. */
  lemma Segment(run: seq<State>, j: nat, k: nat)
    requires Run(run) && j <= k < |run|
    ensures Chain(run[j..k + 1])
  {
    hide Next, Init;
    var seg := run[j..k + 1];
    forall h | 0 <= h < |seg| - 1 ensures Next(seg[h], seg[h + 1]) {
      ChainStep(run, j + h + 1);
    }
  }

  // ---- properties of the kubernetes tree ----

  /** Holds of the live kubernetes tree, of every backup, and of a copy in staging. */
  ghost predicate Everywhere(q: Tree -> bool, s: State) {
    && Inv(s) && q(s.store.live[KUBERNETES])
    && (forall n | n in s.store.backups :: BackupOk(s, n) && q(s.store.backups[n].content[KUBERNETES]))
  }

  /** Whatever writes the kubernetes tree outside restore keeps `q`. */
  ghost predicate WritersKeep(q: Tree -> bool, s: State, t: State) {
    (Reconcile(s, t) || ClusterWrites(s, t) || WriteProbe(s, t)) && |s.store.live| == PARTS && q(s.store.live[KUBERNETES]) ==>
      q(t.store.live[KUBERNETES])
  }

  ghost predicate ClosedUnderRemoval(q: Tree -> bool) {
    !q(map[]) || forall t: Tree, u: Tree :: q(t) && u.Items <= t.Items ==> q(u)
  }

  lemma EverywhereLive(q: Tree -> bool, s: State, t: State)
    requires Everywhere(q, s) && Next(s, t) && WritersKeep(q, s, t) && ClosedUnderRemoval(q)
    ensures |t.store.live| == PARTS && q(t.store.live[KUBERNETES])
  {
    hide HasCAs, NoSuperAdmin, Swept, Alike, Guarded;
    if RestoreStep(s, t) {
      if RestorePart(s, t) {
        assert BackupOk(s, s.pc.name);
      } else if RestoreTorn(s, t) && s.pc.done == KUBERNETES {
        assert BackupOk(s, s.pc.name);
        assert t.store.live[KUBERNETES].Items <= s.store.live[KUBERNETES].Items;
      }
    }
  }

  lemma NewBackupIsLive(s: State, t: State, n: string)
    requires Inv(s) && Next(s, t) && n in t.store.backups && n !in s.store.backups
    ensures t.store.backups[n].content == s.store.live
  {
    hide DeployOf, BaselineNewest, Quiescent, Faithful, Pristine, SkipTaints, BackupsOk, HasCAs, NoSuperAdmin, Swept, Alike, Guarded;
    assert Reveal(s, t);
    assert s.pc.got == s.store.live;
  }

  lemma EverywhereStep(q: Tree -> bool, s: State, t: State)
    requires Everywhere(q, s) && Next(s, t) && WritersKeep(q, s, t) && ClosedUnderRemoval(q)
    ensures Everywhere(q, t)
  {
    hide Next;
    NextKeepsInv(s, t);
    EverywhereLive(q, s, t);
    forall n | n in t.store.backups ensures BackupOk(t, n) && q(t.store.backups[n].content[KUBERNETES]) {
      if n in s.store.backups {
        BackupsChangeByOne(s, t);
      } else {
        NewBackupIsLive(s, t, n);
      }
    }
  }

  /** A property of the kubernetes tree that reconcile and the running cluster keep
      holds of the live tree and of every backup in every reachable state, deaths
      inside restore included. */
  lemma {:induction false} KubernetesTreeProperty(q: Tree -> bool, run: seq<State>, i: nat)
    requires Run(run) && i < |run| && q(run[0].store.live[KUBERNETES]) && ClosedUnderRemoval(q)
    requires forall k | 0 <= k < |run| - 1 :: WritersKeep(q, run[k], run[k + 1])
    ensures Everywhere(q, run[i])
  {
    hide Next;
    if i == 0 {
      InitInv(run[0]);
    } else {
      KubernetesTreeProperty(q, run, i - 1);
      ChainStep(run, i);
      assert WritersKeep(q, run[i - 1], run[i - 1 + 1]);
      EverywhereStep(q, run[i - 1], run[i]);
    }
  }
}
