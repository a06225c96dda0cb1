/** The inductive invariant of the boot protocol. */
module Invariant {
  import opened Types
  import opened Trees
  import opened Names
  import opened Pki
  import opened Protocol

  ghost predicate HostOk(s: State) {
    && |s.store.live| == PARTS
    && s.env.bootID in s.env.used && (forall b | b in s.env.used :: GoodBootID(b))
    && '_' !in s.env.deployment
    && (if s.env.ostree then s.env.deployment in s.env.known else s.env.deployment == "")
    && (s.store.lastBoot.Some? ==>
          '_' !in s.store.lastBoot.value.deploymentID && s.store.lastBoot.value.bootID in s.env.used)
  }

  /** A backup is named by its own metadata and comes from an earlier kernel boot. */
  ghost predicate BackupOk(s: State, n: string) {
    && n in s.store.backups
    && var b := s.store.backups[n];
    && b.meta.Some? && Name(b.meta.value) == n
    && '_' !in b.meta.value.deploymentID
    && b.meta.value.bootID in s.env.used && b.meta.value.bootID != s.env.bootID
    && |b.content| == PARTS && b.mtime < s.store.clock
  }

  ghost predicate BackupsOk(s: State) {
    && (forall n | n in s.store.backups :: BackupOk(s, n))
    && (forall n, m | n in s.store.backups && m in s.store.backups && n != m ::
          s.store.backups[n].mtime != s.store.backups[m].mtime)
  }

  /** The backup last-boot names, once taken, is the newest of its deployment. */
  ghost predicate BaselineNewest(s: State) {
    s.store.lastBoot.Some? && Name(s.store.lastBoot.value) in s.store.backups ==> Newest(s.store, Name(s.store.lastBoot.value))
  }

  predicate PastGate(pc: Pc) {
    pc.Gated? || pc.Running? || pc.Pruning? || pc.Finishing?
  }

  /** Once kubelet may write, the previous boot of this deployment has its backup. */
  ghost predicate Quiescent(s: State) {
    (s.env.kubelet || PastGate(s.pc)) && SnapshotDue(s.env, s.store.lastBoot) ==> Name(s.store.lastBoot.value) in s.store.backups
  }

  ghost predicate PcOk(s: State) {
    match s.pc
    case Restoring(n, k) => RestoreTarget(s, n) && s.hist.tainted && s.store.marker && k <= PARTS
    case Restored(n) => RestoreTarget(s, n) && s.hist.tainted && s.store.marker
    case Recorded(n) => RestoreTarget(s, n) && s.store.lastBoot == s.store.backups[n].meta && !s.hist.tainted
    case Copying(prev, got) =>
      && s.store.lastBoot == Some(prev) && SnapshotDue(s.env, s.store.lastBoot) && Name(prev) !in s.store.backups
      && |got| <= PARTS && |got| <= |s.store.live| && got == s.store.live[..|got|]
    case Pruning(listed) => s.env.ostree && s.env.deployment in listed
    case _ => true
  }

  ghost predicate RestoreTarget(s: State, n: string) {
    s.env.ostree && s.env.deployment != "" && Newest(s.store, n) && DeployOf(n) == s.env.deployment
  }

  /** Every backup not under suspicion holds what its kernel boot left. */
  ghost predicate Faithful(s: State) {
    forall n | n in s.store.backups && n !in s.hist.suspect ::
      && s.store.backups[n].meta.Some?
      && s.store.backups[n].meta.value.bootID in s.hist.left
      && Alike(s.store.backups[n].content, s.hist.left[s.store.backups[n].meta.value.bootID])
  }

  /** An untainted previous boot without a backup is still on disk, but for what write
      probes left; or the node has lost its CA certificates and cannot boot. */
  ghost predicate Pristine(s: State) {
    (s.store.lastBoot.Some? && s.store.lastBoot.value.bootID != s.env.bootID
     && Name(s.store.lastBoot.value) !in s.store.backups && !s.hist.tainted) ==>
      && s.store.lastBoot.value.bootID in s.hist.left
      && (Alike(s.store.live, s.hist.left[s.store.lastBoot.value.bootID]) || Stuck(s))
      && !s.env.kubelet && !PastGate(s.pc)
  }

  ghost predicate Stuck(s: State) {
    s.pc.Idle? && |s.store.live| == PARTS && !HasCAs(s.store.live[KUBERNETES])
  }

  /** Going on without the previous boot's snapshot taints. */
  ghost predicate SkipTaints(s: State) {
    PastGate(s.pc) && s.store.lastBoot.Some? && s.store.lastBoot.value.bootID != s.env.bootID ==>
      s.hist.tainted || SnapshotDue(s.env, s.store.lastBoot)
  }

  ghost predicate Inv(s: State) {
    && HostOk(s) && BackupsOk(s) && BaselineNewest(s) && Quiescent(s) && PcOk(s) && Faithful(s) && Pristine(s) && SkipTaints(s)
  }

  lemma InitInv(s: State)
    requires Init(s)
    ensures Inv(s)
  {}

  /** Facts about backups carry over to any state with the same backups. */
  lemma SameBackups(s: State, t: State)
    requires BackupsOk(s) && t.store.backups == s.store.backups && s.store.clock <= t.store.clock
    requires s.env.used <= t.env.used && (t.env.bootID == s.env.bootID || t.env.bootID !in s.env.used)
    ensures BackupsOk(t)
  {
    forall n | n in t.store.backups ensures BackupOk(t, n) {
      assert BackupOk(s, n);
    }
  }

  lemma RebootKeepsInv(s: State, t: State)
    requires Inv(s) && Reboot(s, t)
    ensures Inv(t)
  {
    hide HasCAs, NoSuperAdmin, Swept;
    SameBackups(s, t);
    forall n | n in s.store.backups ensures BackupOk(s, n) {}
  }

  /** Death, the marker, the listed deployments and the passing of time. */
  lemma QuietKeepsInv(s: State, t: State)
    requires Inv(s) && (Tick(s, t) || Die(s, t) || PlaceMarker(s, t) || DeploymentsChange(s, t))
    ensures Inv(t)
  {
    hide DeployOf, Name, GoodBootID, HasCAs, Alike;
    SameBackups(s, t);
  }

  lemma ClusterKeepsInv(s: State, t: State)
    requires Inv(s) && ClusterWrites(s, t)
    ensures Inv(t)
  {
    hide DeployOf, Name, GoodBootID, HasCAs, Alike;
    SameBackups(s, t);
  }

  lemma SystemKeepsInv(s: State, t: State)
    requires Inv(s) && SystemStep(s, t)
    ensures Inv(t)
  {
    hide Inv, Tick, Die, Reboot, PlaceMarker, DeploymentsChange, ClusterWrites;
    if Reboot(s, t) {
      RebootKeepsInv(s, t);
    } else if ClusterWrites(s, t) {
      ClusterKeepsInv(s, t);
    } else {
      QuietKeepsInv(s, t);
    }
  }

  lemma RecordKeepsInv(s: State, t: State)
    requires Inv(s) && Record(s, t)
    ensures Inv(t)
  {
    hide HasCAs, NoSuperAdmin, Swept;
    SameBackups(s, t);
    assert BackupOk(s, s.pc.name);
  }

  /** Steps that write the live trees while a restore is under way. */
  lemma RestoringKeepsInv(s: State, t: State)
    requires Inv(s) && (RestoreTorn(s, t) || RestorePart(s, t) || RestoreDone(s, t))
    ensures Inv(t)
  {
    hide DeployOf, Name, HasCAs, NoSuperAdmin, Swept;
    SameBackups(s, t);
  }

  lemma EnteringKeepsInv(s: State, t: State)
    requires Inv(s) && (Begin(s, t) || NoRestore(s, t) || NothingToRestore(s, t) || Choose(s, t))
    ensures Inv(t)
  {
    hide DeployOf, Name, HasCAs, NoSuperAdmin, Swept;
    SameBackups(s, t);
  }

  /** A probe neither brings a CA certificate nor takes one. */
  lemma SweptReads(k: Tree, p: Path)
    requires |p| > 0 && !HasPrefix(p[0], PROBE)
    ensures Sub(Swept(k), p) == Sub(k, p)
  {
    hide Sub;
    forall r ensures SameAt(Sub(Swept(k), p), Sub(k, p), r) {
      InSub(Swept(k), p, r);
      InSub(k, p, r);
      assert (p + r)[0] == p[0];
    }
    TreeExtensionality(Sub(Swept(k), p), Sub(k, p));
  }

  lemma SweptGuards(k: Tree, k': Tree)
    requires Swept(k) == Swept(k')
    ensures HasCAs(k) == HasCAs(k') && NoSuperAdmin(k) == NoSuperAdmin(k')
  {
    hide Sub, Swept, Crt;
    assert PROBE[0] != PKI[0] && PROBE[0] != "super-admin.conf"[0];
    forall ca: CA ensures Exists(k, [PKI] + Crt(Authority(ca))) == Exists(k', [PKI] + Crt(Authority(ca))) {
      SweptReads(k, [PKI] + Crt(Authority(ca)));
      SweptReads(k', [PKI] + Crt(Authority(ca)));
    }
    SweptReads(k, ["super-admin.conf"]);
    SweptReads(k', ["super-admin.conf"]);
  }

  /** A bare directory has no CA certificates. */
  lemma BareHasNoCAs()
    ensures !HasCAs(map[]) && !HasCAs(EMPTY_DIR) && NoSuperAdmin(EMPTY_DIR)
  {
    hide Sub, Crt;
    var p := [PKI] + Crt(Authority(ClusterCA));
    BareHasNothing(p);
    BareHasNothing(["super-admin.conf"]);
    assert !Exists(map[], p) && !Exists(EMPTY_DIR, p);
  }

  lemma BareHasNothing(p: Path)
    requires p != []
    ensures Sub(map[], p) == map[] && Sub(EMPTY_DIR, p) == map[]
  {
    hide Sub;
    forall r ensures SameAt(Sub(map[], p), map[], r) && SameAt(Sub(EMPTY_DIR, p), map[], r) {
      InSub(map[], p, r);
      InSub(EMPTY_DIR, p, r);
      assert p + r != [];
    }
    TreeExtensionality(Sub(map[], p), map[]);
    TreeExtensionality(Sub(EMPTY_DIR, p), map[]);
  }

  lemma ProbeKeepsInv(s: State, t: State)
    requires Inv(s) && WriteProbe(s, t)
    ensures Inv(t)
  {
    hide DeployOf, Name, HasCAs, NoSuperAdmin, Swept;
    SameBackups(s, t);
    BareHasNoCAs();
    if Swept(t.store.live[KUBERNETES]) == Swept(s.store.live[KUBERNETES]) {
      SweptGuards(s.store.live[KUBERNETES], t.store.live[KUBERNETES]);
    }
  }

  lemma LeavingKeepsInv(s: State, t: State)
    requires Inv(s) && (ClearMarker(s, t) || GiveUp(s, t))
    ensures Inv(t)
  {
    hide DeployOf, Name, HasCAs, NoSuperAdmin, Swept;
    SameBackups(s, t);
  }

  lemma RestoreKeepsInv(s: State, t: State)
    requires Inv(s) && RestoreStep(s, t)
    ensures Inv(t)
  {
    hide Inv, Record, RestoreTorn, RestorePart, RestoreDone, WriteProbe, Begin, NoRestore, NothingToRestore, Choose, ClearMarker, GiveUp;
    if Record(s, t) {
      RecordKeepsInv(s, t);
    } else if RestoreTorn(s, t) || RestorePart(s, t) || RestoreDone(s, t) {
      RestoringKeepsInv(s, t);
    } else if ClearMarker(s, t) || GiveUp(s, t) {
      LeavingKeepsInv(s, t);
    } else if WriteProbe(s, t) {
      ProbeKeepsInv(s, t);
    } else {
      EnteringKeepsInv(s, t);
    }
  }

  lemma RevealKeepsInv(s: State, t: State)
    requires Inv(s) && Reveal(s, t)
    ensures Inv(t)
  {
    hide HasCAs, NoSuperAdmin, Swept;
    var n := Name(s.pc.prev);
    forall m | m in t.store.backups ensures BackupOk(t, m) {
      assert m != n ==> BackupOk(s, m);
    }
    assert s.pc.got == s.store.live;
  }

  lemma GateKeepsInv(s: State, t: State)
    requires Inv(s) && (SnapshotSkipped(s, t) || SnapshotExists(s, t) || CopyBegins(s, t) || CopyPart(s, t))
    ensures Inv(t)
  {
    hide DeployOf, Name, GoodBootID, HasCAs, Alike;
    SameBackups(s, t);
  }

  lemma SnapshotKeepsInv(s: State, t: State)
    requires Inv(s) && SnapshotStep(s, t)
    ensures Inv(t)
  {
    hide Inv, SnapshotSkipped, SnapshotExists, CopyBegins, CopyPart, Reveal;
    if Reveal(s, t) {
      RevealKeepsInv(s, t);
    } else {
      GateKeepsInv(s, t);
    }
  }

  lemma PruneKeepsInv(s: State, t: State)
    requires Inv(s) && PruneOne(s, t)
    ensures Inv(t)
  {
    hide DeployOf, Name, GoodBootID, HasCAs, Alike;
    forall m | m in t.store.backups ensures BackupOk(t, m) {
      assert BackupOk(s, m);
    }
    PruneKeepsBaseline(s, t);
  }

  /** While pruning, the backup of the previous boot of the booted deployment, which is
      listed, has no newer sibling. */
  lemma PruneKeepsBaseline(s: State, t: State)
    requires Inv(s) && PruneOne(s, t)
    ensures Quiescent(t) && SkipTaints(t) && Pristine(t)
  {
    hide DeployOf, GoodBootID, HasCAs, Alike, Faithful;
    if s.store.lastBoot.Some? {
      DeployOfName(s.store.lastBoot.value);
    }
  }

  lemma WriteLastBootKeepsInv(s: State, t: State)
    requires Inv(s) && WriteLastBoot(s, t)
    ensures Inv(t)
  {
    hide HasCAs, Alike;
    SameBackups(s, t);
    if Name(t.store.lastBoot.value) in s.store.backups {
      var n := Name(t.store.lastBoot.value);
      assert BackupOk(s, n);
      NameInjective(t.store.lastBoot.value, s.store.backups[n].meta.value);
    }
  }

  lemma ReconcileKeepsInv(s: State, t: State)
    requires Inv(s) && Reconcile(s, t)
    ensures Inv(t)
  {
    hide DeployOf, Name, GoodBootID, HasCAs, NoSuperAdmin, Alike, Guarded;
    SameBackups(s, t);
  }

  lemma RunningKeepsInv(s: State, t: State)
    requires Inv(s) && (StartKubelet(s, t) || Healthy(s, t) || PruneEnds(s, t) || LoseLastBoot(s, t))
    ensures Inv(t)
  {
    hide DeployOf, Name, GoodBootID, HasCAs, Alike;
    SameBackups(s, t);
  }

  lemma TailKeepsInv(s: State, t: State)
    requires Inv(s) && TailStep(s, t)
    ensures Inv(t)
  {
    hide Inv, Reconcile, StartKubelet, Healthy, PruneOne, PruneEnds, WriteLastBoot, LoseLastBoot;
    if PruneOne(s, t) {
      PruneKeepsInv(s, t);
    } else if WriteLastBoot(s, t) {
      WriteLastBootKeepsInv(s, t);
    } else if Reconcile(s, t) {
      ReconcileKeepsInv(s, t);
    } else {
      RunningKeepsInv(s, t);
    }
  }

  lemma NextKeepsInv(s: State, t: State)
    requires Inv(s) && Next(s, t)
    ensures Inv(t)
  {
    hide Inv, SystemStep, RestoreStep, SnapshotStep, TailStep;
    if SystemStep(s, t) {
      SystemKeepsInv(s, t);
    } else if RestoreStep(s, t) {
      RestoreKeepsInv(s, t);
    } else if SnapshotStep(s, t) {
      SnapshotKeepsInv(s, t);
    } else {
      TailKeepsInv(s, t);
    }
  }
}
