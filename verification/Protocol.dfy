/** The boot, snapshot, restore and prune lifecycle as a state machine. A state is
    the host's environment, the covered part of its disk, where the one running
    `picokube boot` process stands, and some history kept for the proofs. Every
    step is one primitive action, so a run may stop, die or reboot anywhere. */
module Protocol {
  import opened Types
  import opened Trees
  import opened Names
  import opened Pki

  /** The covered trees, in the order `backup.Create` and `backup.Restore` visit
      them: etcd, kubernetes and the three kubelet files. An absent tree is empty. */
  const PARTS: nat := 5
  const KUBERNETES: nat := 1

  datatype Backup = Backup(meta: Option<LastBoot>, content: seq<Tree>, mtime: nat)

  /** `used` holds every kernel boot id up to the current one; `kubelet` says that
      kubelet was started in this kernel boot. */
  datatype Env = Env(ostree: bool, deployment: string, bootID: string, known: set<string>, used: set<string>, kubelet: bool)

  datatype Store = Store(live: seq<Tree>, backups: map<string, Backup>, lastBoot: Option<LastBoot>, marker: bool, clock: nat)

  /** Where `boot.Run` stands. `Restoring(n, k)`: the first `k` parts of backup `n`
      are in place. `Copying(prev, got)`: the first `|got|` parts are in staging. */
  datatype Pc =
    | Idle
    | Booting
    | Restoring(name: string, done: nat)
    | Restored(name: string)
    | Recorded(name: string)
    | Checked
    | Copying(prev: LastBoot, got: seq<Tree>)
    | Gated
    | Running
    | Pruning(listed: set<string>)
    | Finishing

  /** History. `left[b]`: the covered trees as kernel boot `b` left them. `tainted`:
      the live trees may differ from what the boot named by last-boot left, because
      a restore has begun or another deployment went on to reconcile. `suspect`: the
      backups taken while tainted. */
  datatype History = History(left: map<string, seq<Tree>>, tainted: bool, suspect: set<string>)

  datatype State = State(env: Env, store: Store, pc: Pc, hist: History) {
    function To(pc': Pc): State { this.(pc := pc') }
    function Live(live': seq<Tree>, clock': nat): State { this.(store := store.(live := live', clock := clock')) }
  }

  // ---- the write probe ----

  /** The name every temporary file of the write probe begins with. */
  const PROBE: string := ".preflight-"

  /** One of them. */
  const PROBE_FILE: string := ".preflight-0"

  predicate IsProbe(p: Path) {
    |p| > 0 && HasPrefix(p[0], PROBE)
  }

  /** A tree without what write probes may have left at its top. */
  function Swept(t: Tree): Tree {
    map p | p in t && !IsProbe(p) :: t[p]
  }

  /** Equal but for what write probes left in the kubernetes directory. */
  ghost predicate Alike(a: seq<Tree>, b: seq<Tree>) {
    && |a| == |b| == PARTS
    && (forall i | 0 <= i < PARTS && i != KUBERNETES :: a[i] == b[i])
    && Swept(a[KUBERNETES]) == Swept(b[KUBERNETES])
  }

  predicate BackedUp(store: Store, d: string) {
    exists n :: n in store.backups && DeployOf(n) == d
  }

  /** `n` is the backup `LatestForDeployment` picks for its deployment. */
  predicate Newest(store: Store, n: string) {
    && n in store.backups
    && forall m | m in store.backups && DeployOf(m) == DeployOf(n) :: store.backups[m].mtime <= store.backups[n].mtime
  }

  /** The snapshot gate of `boot.Run`. */
  predicate SnapshotDue(env: Env, lastBoot: Option<LastBoot>) {
    && env.ostree && lastBoot.Some?
    && lastBoot.value.bootID != "" && lastBoot.value.bootID != env.bootID
    && lastBoot.value.deploymentID != "" && lastBoot.value.deploymentID == env.deployment
  }

  predicate Later(s: State, t: State) {
    s.store.clock <= t.store.clock
  }

  // ---- the world around the process ----

  /** Work on disk that changes nothing the machine looks at. */
  ghost predicate Tick(s: State, t: State) {
    Later(s, t) && t == s.(store := s.store.(clock := t.store.clock))
  }

  ghost predicate Die(s: State, t: State) {
    t == s.To(Idle)
  }

  /** Power cycle, possibly into another deployment. The boot id is new. */
  ghost predicate Reboot(s: State, t: State) {
    && t.env.bootID !in s.env.used && GoodBootID(t.env.bootID)
    && '_' !in t.env.deployment
    && (if s.env.ostree then t.env.deployment in t.env.known else t.env.deployment == "")
    && t == s.(env := Env(s.env.ostree, t.env.deployment, t.env.bootID, t.env.known, s.env.used + {t.env.bootID}, false),
               pc := Idle,
               hist := s.hist.(left := s.hist.left[s.env.bootID := s.store.live]))
  }

  /** Greenboot's red.d hook. */
  ghost predicate PlaceMarker(s: State, t: State) {
    t == s.(store := s.store.(marker := true))
  }

  ghost predicate DeploymentsChange(s: State, t: State) {
    && (s.env.ostree ==> s.env.deployment in t.env.known)
    && t == s.(env := s.env.(known := t.env.known))
  }

  /** The running cluster writes its own data. */
  ghost predicate ClusterWrites(s: State, t: State) {
    && s.env.kubelet && |t.store.live| == PARTS
    && t == s.Live(t.store.live, s.store.clock)
  }

  ghost predicate SystemStep(s: State, t: State) {
    Tick(s, t) || Die(s, t) || Reboot(s, t) || PlaceMarker(s, t) || DeploymentsChange(s, t) || ClusterWrites(s, t)
  }

  // ---- maybeRestore ----

  /** The first preflight makes the kubernetes directory when there is none, then
      writes a file in it and removes it; a death may leave the file. */
  ghost predicate WriteProbe(s: State, t: State) {
    && s.pc.Idle? && |s.store.live| == |t.store.live| == PARTS
    && Later(s, t)
    && t == s.Live(s.store.live[KUBERNETES := t.store.live[KUBERNETES]], t.store.clock)
    && var k, k' := s.store.live[KUBERNETES], t.store.live[KUBERNETES];
       Swept(k') == Swept(k) || (k == map[] && k' == EMPTY_DIR)
  }

  /** The preflights have passed, the one on the CA certificates among them. */
  ghost predicate Begin(s: State, t: State) {
    s.pc.Idle? && |s.store.live| == PARTS && HasCAs(s.store.live[KUBERNETES]) && t == s.To(Booting)
  }

  ghost predicate NoRestore(s: State, t: State) {
    && s.pc.Booting? && (!s.env.ostree || !s.store.marker)
    && t == s.To(Checked)
  }

  /** The marker is set but nothing can be restored; clearing it may fail. */
  ghost predicate NothingToRestore(s: State, t: State) {
    && s.pc.Booting? && s.env.ostree && s.store.marker
    && (s.env.deployment == "" || !BackedUp(s.store, s.env.deployment))
    && Later(s, t)
    && t == s.(store := s.store.(marker := t.store.marker, clock := t.store.clock), pc := Checked)
  }

  ghost predicate Choose(s: State, t: State) {
    && s.pc.Booting? && s.env.ostree && s.store.marker && s.env.deployment != ""
    && t.pc.Restoring? && t.pc.done == 0
    && Newest(s.store, t.pc.name) && DeployOf(t.pc.name) == s.env.deployment
    && t == s.(pc := t.pc, hist := s.hist.(tainted := true))
  }

  /** A part caught half way. The kubernetes tree is exchanged whole, so it is
      caught only while it is being removed, and then some of it is left. */
  ghost predicate RestoreTorn(s: State, t: State) {
    && s.pc.Restoring? && s.pc.name in s.store.backups && s.pc.done < |s.store.live| == |t.store.live|
    && |s.store.backups[s.pc.name].content| == PARTS && s.pc.done < PARTS
    && Later(s, t)
    && s.store.backups[s.pc.name].content[s.pc.done] == map[]
    && t.store.live[s.pc.done].Items <= s.store.live[s.pc.done].Items
    && t == s.Live(s.store.live[s.pc.done := t.store.live[s.pc.done]], t.store.clock)
  }

  ghost predicate RestorePart(s: State, t: State) {
    && s.pc.Restoring? && s.pc.name in s.store.backups && s.pc.done < |s.store.live|
    && |s.store.backups[s.pc.name].content| == PARTS && s.pc.done < PARTS
    && Later(s, t)
    && t == s.Live(s.store.live[s.pc.done := s.store.backups[s.pc.name].content[s.pc.done]], t.store.clock)
            .To(Restoring(s.pc.name, s.pc.done + 1))
  }

  ghost predicate RestoreDone(s: State, t: State) {
    && s.pc.Restoring? && s.pc.done == PARTS
    && t == s.To(Restored(s.pc.name))
  }

  ghost predicate Record(s: State, t: State) {
    && s.pc.Restored? && s.pc.name in s.store.backups && s.store.backups[s.pc.name].meta.Some?
    && Later(s, t)
    && t == s.(store := s.store.(lastBoot := s.store.backups[s.pc.name].meta, clock := t.store.clock),
               pc := Recorded(s.pc.name), hist := s.hist.(tainted := false))
  }

  /** The deferred clear after a successful restore; a failure is only logged. */
  ghost predicate ClearMarker(s: State, t: State) {
    && s.pc.Recorded? && (t.store.marker ==> s.store.marker)
    && Later(s, t)
    && t == s.(store := s.store.(marker := t.store.marker, clock := t.store.clock), pc := Checked)
  }

  /** `maybeRestore` returns an error: the deferred clear drops the marker. */
  ghost predicate GiveUp(s: State, t: State) {
    && (s.pc.Booting? || s.pc.Restoring? || s.pc.Restored?)
    && (t.store.marker ==> s.store.marker)
    && Later(s, t)
    && t == s.(store := s.store.(marker := t.store.marker, clock := t.store.clock), pc := Idle)
  }

  ghost predicate RestoreStep(s: State, t: State) {
    || WriteProbe(s, t) || Begin(s, t) || NoRestore(s, t) || NothingToRestore(s, t) || Choose(s, t) || RestoreTorn(s, t)
    || RestorePart(s, t) || RestoreDone(s, t) || Record(s, t) || ClearMarker(s, t) || GiveUp(s, t)
  }

  // ---- the snapshot of the previous boot ----

  /** Not due: no previous boot, the same kernel boot, or another deployment's. */
  ghost predicate SnapshotSkipped(s: State, t: State) {
    && s.pc.Checked? && !SnapshotDue(s.env, s.store.lastBoot)
    && t == s.(pc := Gated,
               hist := s.hist.(tainted := s.hist.tainted ||
                                          (s.store.lastBoot.Some? && s.store.lastBoot.value.bootID != s.env.bootID)))
  }

  ghost predicate SnapshotExists(s: State, t: State) {
    && s.pc.Checked? && SnapshotDue(s.env, s.store.lastBoot) && Name(s.store.lastBoot.value) in s.store.backups
    && t == s.To(Gated)
  }

  ghost predicate CopyBegins(s: State, t: State) {
    && s.pc.Checked? && SnapshotDue(s.env, s.store.lastBoot) && Name(s.store.lastBoot.value) !in s.store.backups
    && t == s.To(Copying(s.store.lastBoot.value, []))
  }

  ghost predicate CopyPart(s: State, t: State) {
    && s.pc.Copying? && |s.pc.got| < PARTS && |s.pc.got| < |s.store.live|
    && Later(s, t)
    && t == s.(store := s.store.(clock := t.store.clock),
               pc := Copying(s.pc.prev, s.pc.got + [s.store.live[|s.pc.got|]]))
  }

  /** The rename that reveals the staged snapshot under its final name. */
  ghost predicate Reveal(s: State, t: State) {
    && s.pc.Copying? && |s.pc.got| == PARTS
    && var n := Name(s.pc.prev);
    && n in t.store.backups
    && Later(s, t) && t.store.backups[n].mtime < t.store.clock
    && (forall m | m in s.store.backups :: s.store.backups[m].mtime < t.store.backups[n].mtime)
    && t == s.(store := s.store.(backups := s.store.backups[n := Backup(Some(s.pc.prev), s.pc.got, t.store.backups[n].mtime)],
                                 clock := t.store.clock),
               pc := Gated,
               hist := s.hist.(suspect := if s.hist.tainted then s.hist.suspect + {n} else s.hist.suspect))
  }

  ghost predicate SnapshotStep(s: State, t: State) {
    SnapshotSkipped(s, t) || SnapshotExists(s, t) || CopyBegins(s, t) || CopyPart(s, t) || Reveal(s, t)
  }

  // ---- reconcile, kubelet, prune, last-boot ----

  /** Neither a CA certificate goes nor super-admin.conf comes. */
  predicate Guarded(k: Tree, k': Tree) {
    (HasCAs(k) ==> HasCAs(k')) && (NoSuperAdmin(k) ==> NoSuperAdmin(k'))
  }

  /** `kubeadm.Ensure`, certificate rotation and the kubelet.conf rewrite. */
  ghost predicate Reconcile(s: State, t: State) {
    && s.pc.Gated? && |s.store.live| == |t.store.live| == PARTS
    && Later(s, t)
    && t == s.Live(t.store.live, t.store.clock)
    && Guarded(s.store.live[KUBERNETES], t.store.live[KUBERNETES])
  }

  ghost predicate StartKubelet(s: State, t: State) {
    && s.pc.Gated?
    && t == s.(env := s.env.(kubelet := true), pc := Running)
  }

  /** The cluster is healthy. Without ostree, or when listing the deployments
      fails, pruning is skipped. */
  ghost predicate Healthy(s: State, t: State) {
    && s.pc.Running?
    && (t == s.To(Finishing) || (s.env.ostree && t == s.To(Pruning(s.env.known))))
  }

  /** One removal: a backup of an unlisted deployment, or one with a newer sibling. */
  ghost predicate PruneOne(s: State, t: State) {
    && s.pc.Pruning? && Later(s, t)
    && exists n | n in s.store.backups ::
         && (DeployOf(n) in s.pc.listed ==> exists m | m in s.store.backups ::
               DeployOf(m) == DeployOf(n) && s.store.backups[n].mtime < s.store.backups[m].mtime)
         && t == s.(store := s.store.(backups := s.store.backups - {n}, clock := t.store.clock))
  }

  /** Pruning ends, finished or given up half way; a failure is only logged. */
  ghost predicate PruneEnds(s: State, t: State) {
    s.pc.Pruning? && t == s.To(Finishing)
  }

  ghost predicate WriteLastBoot(s: State, t: State) {
    && s.pc.Finishing? && Later(s, t)
    && t.store.lastBoot.Some?
    && t == s.(store := s.store.(lastBoot := Some(LastBoot(t.store.lastBoot.value.version, s.env.deployment, s.env.bootID)),
                                 clock := t.store.clock),
               pc := Idle, hist := s.hist.(tainted := false))
  }

  /** The write failed; boot logs it and parks as healthy. */
  ghost predicate LoseLastBoot(s: State, t: State) {
    s.pc.Finishing? && t == s.To(Idle)
  }

  ghost predicate TailStep(s: State, t: State) {
    || Reconcile(s, t) || StartKubelet(s, t) || Healthy(s, t) || PruneOne(s, t) || PruneEnds(s, t)
    || WriteLastBoot(s, t) || LoseLastBoot(s, t)
  }

  ghost predicate Next(s: State, t: State) {
    SystemStep(s, t) || RestoreStep(s, t) || SnapshotStep(s, t) || TailStep(s, t)
  }

  // ---- runs ----

  /** As `initialize.Run` leaves the host, last-boot seeded with the current boot
      or, had it stopped early, not written at all. */
  ghost predicate Init(s: State) {
    && |s.store.live| == PARTS && s.store.backups == map[] && s.pc.Idle?
    && s.env.bootID in s.env.used && (forall b | b in s.env.used :: GoodBootID(b))
    && '_' !in s.env.deployment
    && (if s.env.ostree then s.env.deployment in s.env.known else s.env.deployment == "")
    && (s.store.lastBoot.Some? ==>
          s.store.lastBoot.value.deploymentID == s.env.deployment && s.store.lastBoot.value.bootID == s.env.bootID)
    && !s.hist.tainted && s.hist.suspect == {}
  }

  /** Consecutive states of `run` are steps of the machine. */
  ghost predicate Chain(run: seq<State>) {
    forall i | 0 <= i < |run| - 1 :: Next(run[i], run[i + 1])
  }

  ghost predicate Run(run: seq<State>) {
    |run| > 0 && Init(run[0]) && Chain(run)
  }
}
