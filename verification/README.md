# picokube's lifecycle, modelled and proved in Dafny

picokube supervises a single-node Kubernetes control plane on an image-based host. This
project models what it does to the disk over a node's life: initialisation, the
snapshot, restore and reconcile of every boot, certificate rotation, the readiness
wait, and reset. It proves what those guarantee when calls fail, processes die and the
host reboots at any point.

## How it is built

- **The protocol** (`Protocol`, `Invariant`, `Theorems`, `Fidelity`, `Limits`). A state machine whose
  state is the environment, the covered trees, the backups, last-boot and the restore
  marker, with one step per primitive action of `picokube boot` and of the world around
  it: death between any two actions, reboot into any deployment, the greenboot marker, a
  running cluster writing its data. `Inv` is inductive; the theorems are about all runs.
- **The disk** (`Trees`, `Layouts`, `Effects`, `Disks`, `Moves`). Files are a map from
  paths to nodes; every system call is a tree being read or replaced at a path. A `Disk`
  is a mutable object whose calls may fail as a `faults` oracle says, leaving debris. Each
  call must be a step of the protocol (`Disks.Can`), and the disk keeps a ghost log of
  every state it passed. A process that dies inside a call leaves what a failing call
  leaves, so a fact about every `Disk` covers every place to die.
- **The programs** (`Preflights`, `Swap`, `Snapshot`, `Restore`, `Catalog`, `StateFiles`,
  `Regenerate`, `Rotation`, `Boot`) are methods on a `Disk`, with the branches of the Go
  code. `Booted` says what a healthy boot has done; `Faulty` says that some call failed, and
  the methods promise success when none did. `Guarantees` carries these back to whole runs.
- `Pki` has the certificates as values; `Initialize` and `Teardown` have their own small
  disks, because they run before and after the protocol, and `Teardown` puts init, boot and
  reset together in one machine of the whole node; `HealthCheck` is the concurrent
  readiness wait; `Unmount` is the order in which mounts are detached.

## What is assumed

- Deployment ids hold no underscore, kernel boot ids are new at every boot, not empty, and
  do not end in `.tmp` or `.restoring`. The booted deployment is among the listed ones.
- Time passes between calls, so modification times of backups are distinct and grow.
- The directories of the layout and their `.restoring` siblings do not contain one another
  (`Layouts.DefaultWellFormed` shows it of the default layout).
- Only picokube starts kubelet, only one picokube process runs at a time, and only it and
  greenboot write in picokube's directory; kubelet and its containers may write anywhere
  else.
- For `Guarantees.CAsAlwaysThere`, `SuperAdminNeverReturns` and `RetryCompletes` only: the
  running cluster removes no CA certificate and creates no super-admin.conf, and the
  operator does not run `picokube kubeconfig super-admin`.
- A container that has exited but whose sandbox is not removed counts as able to write.
- Removing one backup in `Prune` is a single step; `Limits.TornRemovalIsChosen` shows what
  any torn one would do.
- A completed call is durable. Death of the process is modelled, loss of power is not.
- kubeadm's `CreatePKIAssets` issues what is missing, reuses the rest and fails on a leaf
  its CA did not sign; `CreateKubeConfigFile` keeps a kubeconfig whose cluster section is the
  expected one, fails on any other file and writes a missing one; `RenewUsingLocalCA`
  re-signs under the CA on disk.
- A goroutine that enters its select when the context is done does not also find its new
  two-second timer expired.

## What the code does not do

- A restore that *returns an error* drops the marker. The next completed `maybeRestore`
  then hands on the half-restored trees as they are (`Theorems.AbandonedRestoreStays`),
  and a due snapshot saves them as what the previous boot left
  (`Theorems.AbandonedRestoreIsBackedUp`); `Theorems.RestoreConvergesExactly` says when a
  restore converges, and `Limits.FailedRestoreSpoilsSnapshot` is a run.
- A deployment that reconciles and fails, followed by a return without a restore, puts its
  data into the other deployment's next backup: whenever the gate lets a boot pass over a
  record that has a deployment and no backup, and only then (`Limits.SkipSpoilsExactly`;
  `Limits.FailedUpgradeSpoilsSnapshot` is a run).
- Nothing else makes a backup differ from what its boot left: `Fidelity.FaithfulUnlessOverwritten`
  names the events that can, over all runs.
- The comment at internal/certs/signers.go:128-131 says that the next boot heals a
  kubeconfig left over by a death after the PKI swap. It does not, unless the kubeconfig or
  the new CA happens to be due (`Rotation.InterruptedRegenerationStays`, with the exact
  condition; `Rotation.HealedExactlyWhenDue` over any number of boots). Every regeneration
  of the cluster CA that succeeds passes a moment at which a death leaves this
  (`Regenerate.RegenerateCA`).
- A reset that could not stop kubelet and its containers can leave a tree that
  `state.Exists` does not see (`Teardown.NoisyResetFoolsTheGuard`, and exactly when in
  `Teardown.GuardHoldsExactly`).
- The comment at internal/preflight/preflight.go:18-22 says that a preflight leaves nothing
  on disk. A `FSWritable` that passes makes the directories that are not there, exactly as
  `Preflights.AfterProbeIsSame` says, so a boot of a node without state fails and makes
  `state.Exists` refuse the init that should follow (`Boot.Run`). A death inside the write
  probe leaves its temporary file, and one in the kubernetes directory gets into the next
  backup: the trees of a snapshot are what a boot left but for such files.
- The comment at internal/certs/init_certs.go:8-10 says that init consumes no material of
  the operator's. What lies in the PKI directory is used (`Pki.Assets`), and a kubeconfig
  for the expected cluster is kept whoever signed it, so init can succeed with one that no
  CA of the node trusts (`Initialize.InitialisedIsTrusted`, with the exact condition).

## Model

| member | source | states |
|---|---|---|
| Theorems.RunInv | internal/boot/boot.go:136-284 | the invariant tying last-boot, backup names, mtimes, pruning, snapshot fidelity and kubelet holds in every state of every run, whatever dies, reboots or fails |
| Theorems.SnapshotQuiescence | internal/boot/boot.go:160-173 | while a snapshot is copied kubelet has not been started in this kernel boot, and the backup revealed is the live data of one instant |
| Fidelity.FaithfulUnlessOverwritten | internal/backup/backup.go:122-167 | over all runs, deployments coming and going, the backup named for a boot holds the trees that boot left, but for files of a write probe that died, unless its snapshot came after a boot went on over those unsaved trees, a restore begun over them was given up or a backup of them was pruned, with last-boot unchanged since |
| Fidelity.SnapshotFidelity | internal/backup/backup.go:122-167 | none of these happens in a run that stays on one deployment and abandons no restore that has begun, so every backup there is faithful |
| Theorems.SnapshotTakesWhatIsThere | internal/boot/boot.go:160-173 | a snapshot that runs through holds the live trees of the gate, so it is what the previous boot left if and only if those are |
| Theorems.BaselineStaysNewest | internal/boot/boot.go:341-351 | the backup last-boot names is the newest of its deployment in every reachable state, and pruning keeps it |
| Theorems.BackupsChangeByOne | internal/backup/backup.go:132-140 | no step rewrites a backup; one appears only as the gate's snapshot, labelled with the booted deployment before kubelet starts; a deployment loses its last one only when pruned as unlisted |
| Theorems.BackupNeverRewritten | internal/backup/backup.go:136-140 | as long as a backup is kept it is kept as it was |
| Theorems.PruneKeepsDeployment | internal/backup/backup.go:331-345 | one removal never takes the last backup of a listed deployment nor the one a restore would pick |
| Theorems.RollbackStaysAvailable | internal/boot/boot.go:262-268 | from any moment at which a deployment has a backup it has one for as long as the system lists it, whenever it was installed; a prune caught in the middle must have listed it |
| Theorems.RestoreConverges | internal/boot/boot.go:312-354 | with the marker set before kubelet, any deaths and reboots later, as long as no attempt clears the marker, the first completed maybeRestore leaves the live trees equal to the newest backup, last-boot to its metadata, the backups unchanged |
| Theorems.AbandonedRestoreStays | internal/boot/boot.go:320-324 | from an attempt that returned an error and cleared the marker, until it is placed again, whatever dies or reboots, the next completed maybeRestore hands on live trees and last-boot as that attempt left them, but for probe files |
| Theorems.RestoreConvergesExactly | internal/boot/boot.go:312-354 | the first completed maybeRestore of a marked node has the backup in place if and only if no attempt gave up and cleared the marker, or the one that did had already put all of it back |
| Theorems.AbandonedRestoreIsBackedUp | internal/boot/boot.go:160-173 | the mixture an abandoned restore left is what the next due snapshot saves under the previous boot's name |
| Theorems.AttemptCompletes | internal/boot/boot.go:312-354 | from any state a death can leave that has the CA certificates, an attempt nothing interrupts completes and clears the marker |
| Theorems.SnapshotAfterRestore | internal/boot/boot.go:147-151 | the snapshot that follows a completed restore copies nothing |
| Theorems.SnapshotThenRestore | internal/backup/backup.go:185-216 | whatever changes the live trees in between, restoring a snapshot gives back exactly the trees it was taken of, absent ones included |
| Theorems.KubernetesTreeProperty | internal/backup/backup.go:391-421 | a property of the kubernetes tree that reconcile and the cluster keep holds of the live tree and of every backup in every reachable state |
| Limits.SkipSpoilsExactly | internal/boot/boot.go:153-165 | when the gate has let a boot pass over the record of an earlier one, whatever that boot may write can come to be snapshotted under that record's name if and only if the record has a deployment and no backup |
| Limits.FailedUpgradeSpoilsSnapshot | internal/boot/boot.go:153-165 | an example: a run, for any two contents, whose backup of one boot holds what another deployment wrote |
| Limits.FailedRestoreSpoilsSnapshot | internal/boot/boot.go:320-324 | for any two contents, a run in which a restore that returns an error ends in a backup of the half-restored mixture |
| Limits.TornRemovalIsChosen | internal/backup/backup.go:340-344 | in any state a boot can reach, a superseded backup of which a removal has left anything is the one the next restore would pick, with whatever is left in it |
| Names.PrefixIffCut | internal/backup/backup.go:252-258 | the prefix test of LatestForDeployment and the first-underscore cut of Prune pick the same backups |
| Names.NameInjective | internal/backup/backup.go:106-108 | a backup's name determines the deployment and the boot |
| Names.NameListable | internal/backup/backup.go:233-239 | the name Create gives is one List shows |
| Layouts.DefaultWellFormed | internal/layout/layout.go:50-91 | the default directories and their restore siblings are apart |
| Swap.SwapDir | internal/atomic/swap.go:31-44 | whatever it returns the two directories are exchanged or untouched at every moment; it may have exchanged them when it reports an error |
| Snapshot.AllocateWorkspace | internal/backup/workspace.go:31-48 | on success staging exists and is empty whatever was in it; nothing observed changes |
| Snapshot.Cleanup | internal/backup/workspace.go:46 | removes staging and leaves every backup |
| Snapshot.Create | internal/backup/backup.go:132-167 | adds exactly one backup with the given metadata and the live trees, or none when it is there already or a call fails; it fails only for an empty id or a failed call |
| Snapshot.StageParts | internal/backup/backup.go:142-158 | stages the five parts, absent ones as absent, changing nothing observed |
| Snapshot.RevealStaged | internal/backup/backup.go:159-165 | the rename reveals metadata and parts together under the name |
| Restore.Restore | internal/backup/backup.go:185-216 | on success every covered part is the backup's; backups, last-boot, marker and every path outside the covered parts are as before; it succeeds unless a call fails |
| Restore.RestoreDir | internal/backup/backup.go:391-422 | one directory is replaced whole or, when the backup lacks it, removed |
| Restore.ReplaceFile | internal/backup/backup.go:426-439 | one kubelet file is replaced whole |
| Moves.KubeletPkiIsOutside | internal/backup/backup.go:85-92 | kubelet's own PKI directory is among the paths a restore leaves untouched |
| Catalog.List | internal/backup/backup.go:220-243 | lists, once each, exactly the directories with a backup's name |
| Catalog.SortByModTimeDesc | internal/backup/backup.go:69-83 | exactly the given entries that still exist, with their times, newest first, each once |
| Catalog.LatestForDeployment | internal/backup/backup.go:247-267 | the newest backup of the deployment, or the empty name exactly when it has none |
| Catalog.Prune | internal/backup/backup.go:311-347 | without an error exactly the newest backup of each known deployment is left, in any order of walking; an early stop has removed nothing it would have kept |
| Catalog.PruneLeavesTheNewest | internal/backup/backup.go:308-347 | after it, one backup per known deployment that had any, none of others, and LatestForDeployment answers as before |
| StateFiles.ReadLastBoot | internal/state/state.go:40-53 | the record on disk, none when there is no file, an error when it does not parse |
| StateFiles.ReadMeta | internal/backup/backup.go:170-180 | the metadata of the backup on disk |
| StateFiles.WriteLastBoot | internal/state/state.go:56-62 | the record is the old one or the new one, the new one exactly on success |
| StateFiles.ClearRestoreMarker | internal/backup/backup.go:362-367 | only the marker changes, and it is gone unless the call failed |
| Regenerate.RegenerateCA | internal/certs/signers.go:135-199 | at every moment and on every error the live PKI directory is the old one or the whole new one and each kubeconfig old or whole and signed by the new CA, nothing else touched; on success all are new, and some moment on the way had the new directory with all the old kubeconfigs |
| Regenerate.WriteKubeconfigAtomic | internal/certs/signers.go:240-255 | the kubeconfig is replaced whole by one the live cluster CA signed |
| Pki.NewPkiReplaces | internal/certs/signers.go:151-177 | the new PKI directory has a new CA and new leaves signed by it |
| Pki.NewPkiKeepsItem | internal/certs/signers.go:151-171 | the other CAs' certificates and keys and their leaves are byte for byte as before |
| Pki.NewPki | internal/certs/signers.go:172-177 | every CA is present and every PKI leaf is signed by the CA beside it |
| Pki.HealthyRegenerates | internal/certs/signers.go:111-135 | regeneration cannot fail on a tree whose other CAs own their keys and whose other leaves are signed |
| Pki.Assets | internal/certs/signers.go:38-55 | what is there is kept; afterwards every CA is present and every leaf signed |
| Pki.CascadeIsSigner | internal/certs/types.go:73-116 | the two dependency lists cover every leaf but super-admin.conf, each under the one CA that signs it |
| Pki.SaturationIsHarmless | internal/certs/expiry.go:54-65 | the rotation test gives the same answer on saturating 64-bit durations as on unbounded ones |
| Pki.DueStaysDue | internal/certs/expiry.go:54-65 | a certificate once due stays due |
| Pki.FreshIsDue | internal/certs/expiry.go:38-65 | a certificate just issued is due exactly when issued for less than 210 days |
| Rotation.CheckCAs | internal/certs/expiry.go:141-165 | the certificate of every CA on disk, none when its file is missing, an error when it does not parse |
| Rotation.CheckLeaves | internal/certs/expiry.go:102-136 | the certificate of every leaf on disk, none when its file is missing |
| Rotation.RenewLeaves | internal/certs/signers.go:90-109 | each listed leaf is re-signed by the CA on disk and no other certificate changes |
| Rotation.RotateCAs | internal/boot/boot.go:460-477 | exactly the stale CAs are replaced with everything they signed but super-admin.conf |
| Rotation.RotateCertsIfStale | internal/boot/boot.go:457-501 | on nil return exactly the stale CAs and then exactly the leaves still stale are replaced; with nothing due it writes nothing; on intact certificates only a failed call makes it fail |
| Rotation.ChainsAfterRotation | internal/boot/boot.go:443-456 | a leaf chains to its CA afterwards exactly when it did before, or its CA or the leaf itself was stale |
| Rotation.RotationPreservesTrust | internal/boot/boot.go:443-501 | if every leaf but super-admin.conf chains on entry, every one does on nil return |
| Rotation.HealthyLeafUntouched | internal/boot/boot.go:450-456 | a leaf outside the replaced CAs' dependents that was not stale is unchanged |
| Rotation.RotationSettles | internal/boot/boot.go:454-456 | with issuance periods of at least 210 days nothing is due afterwards, so a second rotation at the same instant changes nothing |
| Rotation.InterruptedRegenerationStays | internal/certs/signers.go:125-131 | after a death between the swap and a kubeconfig's rename, that kubeconfig is healed exactly when it or the new CA is due |
| Rotation.HealedExactlyWhenDue | internal/certs/signers.go:125-131 | after a death at such a moment of a regeneration of the cluster CA, however many boots rotate at whatever instants and on whatever terms, an old kubeconfig is trusted again if and only if one of them rotated at a date on which it or the new CA was due |
| Rotation.HalfwayIsThere | internal/certs/signers.go:178-199 | every tree a regeneration can succeed on has such a halfway tree |
| Rotation.CAExistPreflight | internal/certs/preflight.go:24-35 | passes only with all three CA certificates, and then unless a call fails |
| Boot.MaybeRestore | internal/boot/boot.go:312-354 | with the marker and a backup the newest one is live and is the previous boot, otherwise nothing live changes; backups never change; the marker survives only a failed call |
| Boot.SnapshotGate | internal/boot/boot.go:142-173 | when the gate is passed a due snapshot is there, new ones holding the live trees as found, and nothing else has changed |
| Boot.Ensure | internal/kubeadm/ensure.go:29-74 | the manifests and kubelet files are as rendered and nothing else in the kubernetes directory changes |
| Boot.FinalizeKubeletKubeconfig | internal/kubeadm/kubeletfinalize.go:30-66 | once kubelet's rotated certificate is there kubelet.conf is the file it was with the client taken from that certificate, before that nothing changes; it fails only for a failed call or a file that does not parse |
| Boot.ReconcileNode | internal/boot/boot.go:186-203 | kubelet's files are as rendered and the certificates rotated before kubelet starts |
| Boot.PruneKnown | internal/boot/boot.go:262-268 | pruning keeps the backup a restore would pick for every listed deployment, and is exact unless a call fails |
| Boot.Finish | internal/boot/boot.go:262-284 | last-boot names this boot unless a call failed; nothing but backups and last-boot changes |
| Boot.Run | internal/boot/boot.go:89-305 | a healthy boot has rotated the certificates it found or restored, kept or taken the previous boot's backup and recorded itself; every moment of every boot satisfies the protocol's invariant; without the CAs it fails and changes nothing but the two directories and probe files, and unless a call failed leaves no probe file and both directories, so state.Exists refuses an init; on a node with intact certificates, a marked one with an intact backup included, it fails only when a call does or the last-boot file does not parse |
| Preflights.FSWritable | internal/preflight/fs.go:17-27 | whatever it returns every other node of the disk is as it was but for probe files; on success the two directories exist and the probe files are gone |
| Preflights.AfterProbeIsSame | internal/preflight/preflight.go:18-22 | a write probe that passes leaves the disk as it was if and only if both directories were there and no file under the probe's name |
| Preflights.ProbedCAs | internal/boot/boot.go:104-107 | the write probe neither brings nor removes a CA certificate, so the gate after it sees the node as it was |
| Boot.StagesMakeABoot | internal/boot/boot.go:136-284 | the stages together leave the baseline's backup on disk through the prune |
| Guarantees.BootIsAChain | internal/boot/boot.go:89-305 | a boot stopped at any point is a piece of a protocol run |
| Guarantees.CAsAlwaysThere | internal/certs/preflight.go:9-15 | unless the cluster itself removes one, all three CA certificates are live and in every backup in every reachable state |
| Guarantees.RetryCompletes | internal/boot/boot.go:104-107 | so wherever a marked node is booted for a restore the CA gate lets it through and an attempt that nothing interrupts completes |
| Guarantees.SuperAdminNeverReturns | internal/initialize/initialize.go:82-107 | after a successful init, unless the cluster or the operator makes one, super-admin.conf is in neither the live tree nor any backup in any reachable state |
| Guarantees.BootIsANodeRun | internal/boot/boot.go:89-305 | a boot's log is a piece of a run of the node machine, in which picokube's directory once made stays |
| Guarantees.InitIsANodeRun | internal/initialize/initialize.go:53-149 | so is an init's log |
| Initialize.Run | internal/initialize/initialize.go:53-149 | on any node state.Exists says no of, whatever else is on it, success leaves an initialised node; without a failed call it succeeds if and only if what it finds in the kubernetes directory fits; at every moment, deaths included, super-admin.conf is there only from when everything else was seeded, or from the start if it was found, to its removal, which a successful run has passed; from the first directory on state.Exists says yes |
| Initialize.NothingFits | internal/certs/signers.go:38-67 | on a node without a kubernetes directory everything fits, so that init fails only when a call does |
| Initialize.WriteLastBoot | internal/initialize/initialize.go:154-175 | the first record is on disk on success and the seeded material untouched |
| Initialize.InitialisedIsInit | internal/initialize/initialize.go:142-149 | a successful init leaves a state the boot protocol starts from |
| Initialize.InitialisedIsTrusted | internal/certs/init_certs.go:8-18 | it leaves all CAs, no super-admin.conf and every PKI leaf signed; a kubeconfig is signed by the CA if and only if none was found there or the one found was |
| Initialize.CleanInitIsTrusted | internal/certs/init_certs.go:8-18 | without a kubernetes directory to begin with every leaf is signed by its CA |
| HealthCheck.ReachableInv | internal/healthcheck/cluster.go:45-82 | sent is received plus in the channel, and received plus remaining is the number of checks, in any interleaving |
| HealthCheck.NilMeansAllReady | internal/healthcheck/cluster.go:71-81 | nil is returned only if every check has returned true at least once |
| HealthCheck.ErrorMeansCallerEnded | internal/healthcheck/cluster.go:76-79 | an error is returned only when the caller's context has ended |
| HealthCheck.NoSenderBlocks | internal/healthcheck/cluster.go:54-62 | channel occupancy plus names not yet sent never exceeds the capacity, so no sender ever blocks |
| HealthCheck.NothingLost | internal/healthcheck/cluster.go:71-75 | received plus remaining is always the number of checks |
| HealthCheck.GoroutinesDrain | internal/healthcheck/cluster.go:46-52 | once the context is done the goroutines take at most three actions per check |
| HealthCheck.DrainedMeansExited | internal/healthcheck/cluster.go:57-68 | after the return, when no goroutine can act any more all have exited |
| Unmount.UnmountKubeletMounts | internal/teardown/teardown.go:141-177 | processes exactly the mounts strictly under the kubelet directory with multiplicity, none before one beneath it; the error names exactly the failures other than EINVAL |
| Unmount.TargetsAre | internal/teardown/teardown.go:151-158 | a target is a second field of some line with the directory's prefix |
| Unmount.ChildrenFirst | internal/teardown/teardown.go:134-135 | reverse byte order puts every mount after all mounts beneath it |
| Unmount.JoinSplit | internal/teardown/teardown.go:152-153 | splitting the mount table loses nothing |
| Unmount.FailuresAre | internal/teardown/teardown.go:161-170 | a target is in the error exactly when it failed with something other than EINVAL |
| Teardown.RunReset | internal/teardown/teardown.go:55-85 | a reset without error has removed the four managed trees and nothing else, so state.Exists says no; it fails only when a call does; unless one fails, kubelet and its containers are gone before picokube's directory goes |
| Teardown.NoStateMeansClean | internal/state/state.go:94-108 | over every run of inits, boots and resets with deaths anywhere in which picokube's directory goes only once kubelet and its containers are stopped, state.Exists says no only when all four trees are gone |
| Teardown.GuardHoldsExactly | internal/teardown/teardown.go:87-124 | and only in those: the guard is sound all through a run, and after whatever kubelet and containers write next, if and only if nothing that could write was left each time picokube's directory went |
| Teardown.NoisyResetFoolsTheGuard | internal/teardown/teardown.go:87-99 | an example: a run in which kubelet could not be stopped and the guard misses kubelet's directory |

## Left out

- x509, PEM, YAML and JSON: certificates and records appear as the values they decode to; kubeadm's issuing calls follow the two rules above, without its external-CA mode.
- The service-account key pair: no operation deletes it, so it is carried as an ordinary file.
- Free-space arithmetic: the space preflight is a call that succeeds or fails.
- last-event messages, logging, sd_notify, systemctl, rpm-ostree and CRI calls: calls that succeed or fail, or inputs.
- Config loading and pinning, addons and RBAC: nothing they do reaches the modelled files.
- File modes, ownership, reflinks, symlinks, and parents made along the way: a node exists only when something is at or below it.
- Interference during one call sequence: other actors take their steps between protocol steps in whole runs; the methods on a `Disk` run alone.
- Real time inside one rotation: one instant stands for all the clock readings of a call.
- The random suffix of temporary names: one name stands for all of them.
- Prune removing a backup file by file: one step, see the assumptions.
- Fidelity.FaithfulUnlessOverwritten: one direction only; what was written over unsaved trees may by chance equal what their boot left. `Limits.SkipSpoilsExactly` and `Theorems.AbandonedRestoreIsBackedUp` are the other direction.
