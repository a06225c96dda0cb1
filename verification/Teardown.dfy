/** `picokube reset` against the guard of `picokube init`: the order in which the
    managed trees go, and what `state.Exists` can be relied on for. */
module Teardown {
  import opened Types
  import opened Trees
  import opened Layouts
  import opened Disks
  import opened Unmount

  /** The trees `teardown.Run` removes, in its order. */
  function Managed(l: Layout): (ms: seq<Path>)
    ensures |ms| == TREES
  {
    [l.kubernetesDir, l.etcdDataDir, l.kubeletDir, l.picoKubeVarDir]
  }

  const TREES: nat := 4
  const VAR: nat := 3

  function KubeAPIServerManifest(l: Layout): Path {
    l.kubernetesDir + ["manifests", "kube-apiserver.yaml"]
  }

  /** state.Exists: either signal is reason to refuse an init. */
  predicate StateExists(l: Layout, fs: Tree) {
    Exists(fs, KubeAPIServerManifest(l)) || Exists(fs, l.picoKubeVarDir)
  }

  predicate AllGone(l: Layout, fs: Tree) {
    forall i | 0 <= i < TREES :: !Exists(fs, Managed(l)[i])
  }

  lemma ManagedApart(l: Layout, i: nat, j: nat)
    requires WellFormed(l) && i < TREES && j < TREES && i != j
    ensures Apart(Managed(l)[i], Managed(l)[j])
  {
    var a := if i == 0 then 1 else if i == 1 then 3 else if i == 2 then 2 else 0;
    var b := if j == 0 then 1 else if j == 1 then 3 else if j == 2 then 2 else 0;
    RootsApart(l, a, b, [], []);
    assert Managed(l)[i] + [] == Managed(l)[i] && Managed(l)[j] + [] == Managed(l)[j];
  }

  // ---- the node over init, boot and reset ----

  /** `Working`: an init or a boot past its first act, making the picokube directory.
      `Resetting(k)`: the first `k` trees are removed. */
  datatype Proc = NoProcess | Working | Resetting(removed: nat)

  /** `kubelet`: it has been started and not stopped. `containers`: some it started
      have not been removed, and may still be running without it. */
  datatype Node = Node(fs: Tree, proc: Proc, kubelet: bool, containers: bool) {
    predicate Busy() { kubelet || containers }
  }

  /** The first preflight of init and of boot makes the picokube directory. */
  ghost predicate Begin(l: Layout, s: Node, t: Node) {
    s.proc.NoProcess? && Exists(t.fs, l.picoKubeVarDir) && t == s.(proc := Working, fs := t.fs)
  }

  /** Whatever else init and boot do, starting kubelet included, leaves that
      directory in place. */
  ghost predicate Work(l: Layout, s: Node, t: Node) {
    s.proc.Working? && Exists(t.fs, l.picoKubeVarDir) && t == s.(fs := t.fs, kubelet := t.kubelet)
  }

  /** Kubelet and the containers write everywhere but in picokube's own directory, and
      kubelet starts containers. */
  ghost predicate Writes(l: Layout, s: Node, t: Node) {
    && s.Busy() && Sub(t.fs, l.picoKubeVarDir) == Sub(s.fs, l.picoKubeVarDir)
    && (s.containers ==> t.containers) && t == s.(fs := t.fs, containers := t.containers)
  }

  /** Stopping kubelet may fail. */
  ghost predicate BeginReset(s: Node, t: Node) {
    s.proc.NoProcess? && (t.kubelet ==> s.kubelet) && t == s.(proc := Resetting(0), kubelet := t.kubelet)
  }

  /** Removing the containers may fail too. */
  ghost predicate RemoveContainers(s: Node, t: Node) {
    s.proc == Resetting(0) && (t.containers ==> s.containers) && t == s.(containers := t.containers)
  }

  /** One tree removed, or some of it. */
  ghost predicate RemoveTree(l: Layout, s: Node, t: Node) {
    && s.proc.Resetting? && s.proc.removed < TREES
    && (exists rest: Tree :: rest.Items <= Sub(s.fs, Managed(l)[s.proc.removed]).Items
                             && t.fs == Graft(s.fs, Managed(l)[s.proc.removed], rest)
                             && (t.proc == Resetting(s.proc.removed + 1) ==> rest == map[]))
    && (t.proc == s.proc || t.proc == Resetting(s.proc.removed + 1) || t.proc == NoProcess)
    && t == s.(fs := t.fs, proc := t.proc)
  }

  ghost predicate Die(s: Node, t: Node) {
    t == s.(proc := NoProcess)
  }

  ghost predicate Reboot(s: Node, t: Node) {
    t == s.(proc := NoProcess, kubelet := false, containers := false)
  }

  ghost predicate Step(l: Layout, s: Node, t: Node) {
    || Begin(l, s, t) || Work(l, s, t) || Writes(l, s, t) || BeginReset(s, t) || RemoveContainers(s, t)
    || RemoveTree(l, s, t) || Die(s, t) || Reboot(s, t) || s == t
  }

  ghost predicate Stepwise(l: Layout, run: seq<Node>) {
    forall i | 0 <= i < |run| - 1 :: Step(l, run[i], run[i + 1])
  }

  /** From a clean node. */
  ghost predicate Run(l: Layout, run: seq<Node>) {
    && |run| > 0 && WellFormed(l) && AllGone(l, run[0].fs) && run[0].proc.NoProcess? && !run[0].Busy()
    && Stepwise(l, run)
  }

  /** A reset removes the last of the picokube directory. */
  ghost predicate Takes(l: Layout, s: Node, t: Node) {
    s.proc == Resetting(VAR) && Exists(s.fs, l.picoKubeVarDir) && !Exists(t.fs, l.picoKubeVarDir)
  }

  /** Whenever the picokube directory went, kubelet was stopped and its containers
      were removed. */
  ghost predicate QuietTakes(l: Layout, run: seq<Node>) {
    forall i | 0 <= i < |run| - 1 && Takes(l, run[i], run[i + 1]) :: !run[i].Busy()
  }

  /** The guard says no only of a clean node. */
  ghost predicate GuardSound(l: Layout, s: Node) {
    !StateExists(l, s.fs) ==> AllGone(l, s.fs)
  }

  /** It does so now, and still will after whatever kubelet and containers write next. */
  ghost predicate GuardHolds(l: Layout, s: Node) {
    GuardSound(l, s) && forall t | Writes(l, s, t) :: GuardSound(l, t)
  }

  ghost predicate Inv(l: Layout, s: Node) {
    && (!Exists(s.fs, l.picoKubeVarDir) ==> AllGone(l, s.fs) && !s.Busy() && !s.proc.Working?)
    && (s.proc.Resetting? ==> s.proc.removed <= TREES && (s.proc.removed == TREES ==> !s.Busy()))
    && (s.proc.Resetting? && !s.Busy() ==> forall i | 0 <= i < s.proc.removed :: !Exists(s.fs, Managed(l)[i]))
  }

  lemma RemovedAt(l: Layout, fs: Tree, k: nat, rest: Tree, i: nat)
    requires WellFormed(l) && k < TREES && i < TREES && rest.Items <= Sub(fs, Managed(l)[k]).Items
    ensures var fs' := Graft(fs, Managed(l)[k], rest);
            && Sub(fs', Managed(l)[i]) == (if i == k then rest else Sub(fs, Managed(l)[i]))
            && (!Exists(fs, Managed(l)[i]) ==> !Exists(fs', Managed(l)[i]))
  {
    hide Sub, Graft, Managed;
    if i == k {
      SubGraftSame(fs, Managed(l)[k], rest);
      if rest != map[] {
        var p :| p in rest;
        assert (p, rest[p]) in Sub(fs, Managed(l)[k]).Items;
      }
    } else {
      ManagedApart(l, k, i);
      SubGraftApart(fs, Managed(l)[k], rest, Managed(l)[i]);
    }
  }

  lemma RemovalKeepsInv(l: Layout, s: Node, t: Node)
    requires WellFormed(l) && Inv(l, s) && RemoveTree(l, s, t) && (Takes(l, s, t) ==> !s.Busy())
    ensures Inv(l, t)
  {
    hide Sub, Graft;
    var k := s.proc.removed;
    var rest: Tree :| rest.Items <= Sub(s.fs, Managed(l)[k]).Items && t.fs == Graft(s.fs, Managed(l)[k], rest)
                      && (t.proc == Resetting(k + 1) ==> rest == map[]);
    forall i | 0 <= i < TREES ensures !Exists(s.fs, Managed(l)[i]) ==> !Exists(t.fs, Managed(l)[i]) {
      RemovedAt(l, s.fs, k, rest, i);
    }
    RemovedAt(l, s.fs, k, rest, k);
    RemovedAt(l, s.fs, k, rest, VAR);
    assert Managed(l)[VAR] == l.picoKubeVarDir;
  }

  lemma StepKeepsInv(l: Layout, s: Node, t: Node)
    requires WellFormed(l) && Inv(l, s) && Step(l, s, t) && (Takes(l, s, t) ==> !s.Busy())
    ensures Inv(l, t)
  {
    hide Sub, Graft, Managed, AllGone;
    if RemoveTree(l, s, t) {
      RemovalKeepsInv(l, s, t);
    }
  }

  lemma DirThere(p: Path)
    ensures var fs: Tree := map[p := Dir]; Exists(fs, p)
  {
    hide Sub;
    var fs: Tree := map[p := Dir];
    assert p + [] == p;
    InSub(fs, p, []);
  }

  lemma {:induction false} RunInv(l: Layout, run: seq<Node>, i: nat)
    requires Run(l, run) && QuietTakes(l, run) && i < |run|
    ensures Inv(l, run[i])
  {
    if i > 0 {
      RunInv(l, run, i - 1);
      assert Step(l, run[i - 1], run[i - 1 + 1]);
      StepKeepsInv(l, run[i - 1], run[i]);
    }
  }

  /** The guard is sound: over every run of inits, boots and resets from a clean node,
      dying anywhere, in which the picokube directory goes only once kubelet and its
      containers are stopped, `state.Exists` answers no only when all four managed
      trees are gone. */
  lemma NoStateMeansClean(l: Layout, run: seq<Node>, i: nat)
    requires Run(l, run) && QuietTakes(l, run) && i < |run|
    ensures !StateExists(l, run[i].fs) ==> AllGone(l, run[i].fs)
  {
    RunInv(l, run, i);
  }

  /** And only then: the guard holds all through a run exactly when whatever could
      still write was stopped each time the picokube directory went. */
  lemma GuardHoldsExactly(l: Layout, run: seq<Node>)
    requires Run(l, run)
    ensures QuietTakes(l, run) <==> forall i | 0 <= i < |run| :: GuardHolds(l, run[i])
  {
    hide Sub, Graft, Managed, AllGone, StateExists, Exists;
    if QuietTakes(l, run) {
      forall i | 0 <= i < |run| ensures GuardHolds(l, run[i]) {
        RunInv(l, run, i);
        InvHolds(l, run[i]);
      }
    }
    if forall i | 0 <= i < |run| :: GuardHolds(l, run[i]) {
      forall i | 0 <= i < |run| - 1 && Takes(l, run[i], run[i + 1]) ensures !run[i].Busy() {
        assert Step(l, run[i], run[i + 1]) && GuardHolds(l, run[i + 1]);
        TakeKeepsBusy(l, run[i], run[i + 1]);
        if run[i].Busy() {
          KubeletReturns(l, run[i + 1]);
        }
      }
    }
  }

  lemma InvHolds(l: Layout, s: Node)
    requires Inv(l, s)
    ensures GuardHolds(l, s)
  {
    hide Sub, Managed, AllGone;
    assert !StateExists(l, s.fs) ==> !Exists(s.fs, l.picoKubeVarDir);
    forall t | Writes(l, s, t) ensures GuardSound(l, t) {
      assert Exists(s.fs, l.picoKubeVarDir) && Exists(t.fs, l.picoKubeVarDir);
    }
  }

  lemma TakeKeepsBusy(l: Layout, s: Node, t: Node)
    requires Step(l, s, t) && Takes(l, s, t)
    ensures t.Busy() == s.Busy()
  {
    hide Sub, Graft, Managed;
  }

  /** With the picokube directory gone, kubelet or a container that is left can make
      the kubelet directory again, and the guard does not see it. */
  lemma KubeletReturns(l: Layout, s: Node)
    requires WellFormed(l) && s.Busy() && !Exists(s.fs, l.picoKubeVarDir)
    ensures !GuardHolds(l, s)
  {
    hide Graft, Sub, Managed;
    var k := l.kubeletDir;
    var t := s.(fs := map[k := Dir]);
    OnlyKubelet(l);
    AbsentSub(s.fs, l.picoKubeVarDir);
    assert Writes(l, s, t);
    assert !GuardSound(l, t) by {
      ManagedNames(l);
      assert Exists(t.fs, Managed(l)[2]);
    }
  }

  lemma AbsentSub(t: Tree, p: Path)
    ensures Exists(t, p) <==> Sub(t, p) != map[]
  {}

  lemma OnlyKubelet(l: Layout)
    requires WellFormed(l)
    ensures var fs: Tree := map[l.kubeletDir := Dir];
            Sub(fs, l.picoKubeVarDir) == map[] && Exists(fs, l.kubeletDir) && !StateExists(l, fs)
  {
    hide Graft, Sub, Managed;
    var v, k := l.picoKubeVarDir, l.kubeletDir;
    var fs: Tree := map[k := Dir];
    ManagedApart(l, 2, VAR);
    ManagedNames(l);
    OnlyThere(k, v);
    RootsApart(l, 2, 1, [], ["manifests", "kube-apiserver.yaml"]);
    assert k + [] == k;
    OnlyThere(k, KubeAPIServerManifest(l));
    DirThere(k);
  }

  /** An init or a boot, by the files it leaves at its successive moments: it stutters
      until the picokube directory is there, which then stays. */
  ghost predicate Keeps(l: Layout, was: Tree, now: Tree, kubelet: bool, kubelet': bool) {
    (now == was || Exists(now, l.picoKubeVarDir)) && (kubelet' == kubelet || (Exists(was, l.picoKubeVarDir) && Exists(now, l.picoKubeVarDir)))
  }

  /** Such a process takes only the steps it has in this machine. */
  lemma ProcessIsSteps(l: Layout, fss: seq<Tree>, kubelet: seq<bool>, containers: bool) returns (run: seq<Node>)
    requires |fss| == |kubelet| > 0 && (|fss| > 1 ==> kubelet[0] == kubelet[1])
    requires forall i | 0 <= i < |fss| - 1 :: Keeps(l, fss[i], fss[i + 1], kubelet[i], kubelet[i + 1])
    ensures |run| == |fss| && run[0] == Node(fss[0], NoProcess, kubelet[0], containers)
    ensures forall i | 0 <= i < |run| :: run[i] == Node(fss[i], run[i].proc, kubelet[i], containers) && !run[i].proc.Resetting?
    ensures Stepwise(l, run)
  {
    hide Sub, Exists;
    run := seq(|fss|, i requires 0 <= i < |fss| =>
      Node(fss[i], if i > 0 && Exists(fss[i], l.picoKubeVarDir) then Working else NoProcess, kubelet[i], containers));
    forall i | 0 <= i < |run| - 1 ensures Step(l, run[i], run[i + 1]) {
      assert Keeps(l, fss[i], fss[i + 1], kubelet[i], kubelet[i + 1]);
      if run[i + 1].proc.Working? {
        assert run[i].proc.Working? ==> Work(l, run[i], run[i + 1]);
      }
    }
  }

  /** For example: kubelet cannot be stopped, and makes its directory again after the
      last removal. */
  lemma NoisyResetFoolsTheGuard(l: Layout) returns (run: seq<Node>)
    requires WellFormed(l)
    ensures Run(l, run) && !StateExists(l, run[|run| - 1].fs) && Exists(run[|run| - 1].fs, l.kubeletDir)
  {
    hide Graft, Sub, Managed;
    var v, k := l.picoKubeVarDir, l.kubeletDir;
    var nothing: Tree := map[];
    var made: Tree := map[v := Dir];
    var n0 := Node(nothing, NoProcess, false, false);
    var n1 := Node(made, Working, false, false);
    var n2, n3, n4 := n1.(kubelet := true), Node(made, NoProcess, true, false), Node(made, Resetting(0), true, false);
    var n5, n6, n7 := n4.(proc := Resetting(1)), n4.(proc := Resetting(2)), n4.(proc := Resetting(3));
    var n8 := Node(nothing, Resetting(4), true, false);
    var n9 := n8.(fs := map[k := Dir]);
    run := [n0, n1, n2, n3, n4, n5, n6, n7, n8, n9];
    DirThere(v);
    assert Begin(l, n0, n1) && Work(l, n1, n2) && Die(n2, n3) && BeginReset(n3, n4);
    RemovesAbsent(l, n4, n5);
    RemovesAbsent(l, n5, n6);
    RemovesAbsent(l, n6, n7);
    RemovesVar(l, n7, n8);
    OnlyKubelet(l);
    NothingThere(v);
    assert Writes(l, n8, n9);
    forall i | 0 <= i < TREES ensures !Exists(nothing, Managed(l)[i]) {
      NothingThere(Managed(l)[i]);
    }
  }

  lemma ManagedNames(l: Layout)
    ensures |Managed(l)| == TREES && Managed(l)[0] == l.kubernetesDir && Managed(l)[1] == l.etcdDataDir
    ensures Managed(l)[2] == l.kubeletDir && Managed(l)[VAR] == l.picoKubeVarDir
  {}

  lemma NothingThere(p: Path)
    ensures Sub(map[], p) == map[]
  {
    hide Sub;
    forall r ensures SameAt(Sub(map[], p), map[], r) {
      InSub(map[], p, r);
    }
    TreeExtensionality(Sub(map[], p), map[]);
  }

  lemma OnlyThere(p: Path, q: Path)
    requires Apart(p, q)
    ensures Sub(map[p := Dir], q) == map[]
  {
    hide Sub;
    var t: Tree := map[p := Dir];
    forall r ensures SameAt(Sub(t, q), map[], r) {
      InSub(t, q, r);
      UnderSelf(q, r);
    }
    TreeExtensionality(Sub(t, q), map[]);
  }

  /** Removing a tree that is not there. */
  lemma RemovesAbsent(l: Layout, s: Node, t: Node)
    requires WellFormed(l) && s.proc.Resetting? && s.proc.removed < VAR
    requires s.fs == map[l.picoKubeVarDir := Dir] && t == s.(proc := Resetting(s.proc.removed + 1))
    ensures RemoveTree(l, s, t)
  {
    hide Sub, Graft, Managed;
    var p := Managed(l)[s.proc.removed];
    ManagedApart(l, s.proc.removed, VAR);
    ManagedNames(l);
    forall q ensures SameAt(Graft(s.fs, p, map[]), s.fs, q) {
      InGraft(s.fs, p, map[], q);
    }
    TreeExtensionality(Graft(s.fs, p, map[]), s.fs);
    var rest: Tree := map[];
    assert rest.Items <= Sub(s.fs, p).Items && t.fs == Graft(s.fs, p, rest);
  }

  lemma RemovesVar(l: Layout, s: Node, t: Node)
    requires s.proc == Resetting(VAR) && s.fs == map[l.picoKubeVarDir := Dir] && t == s.(fs := map[], proc := Resetting(TREES))
    ensures RemoveTree(l, s, t)
  {
    hide Sub, Graft, Managed;
    var p := l.picoKubeVarDir;
    ManagedNames(l);
    forall q ensures SameAt(Graft(s.fs, p, map[]), map[], q) {
      InGraft(s.fs, p, map[], q);
      assert Under(p, p);
    }
    TreeExtensionality(Graft(s.fs, p, map[]), map[]);
    var rest: Tree := map[];
    assert rest.Items <= Sub(s.fs, p).Items && t.fs == Graft(s.fs, p, rest);
  }

  // ---- teardown.Run ----

  /** The node as `picokube reset` works on it. */
  class Host {
    const l: Layout
    const faults: nat -> Outcome
    var fs: Tree
    var calls: nat
    ghost var proc: Proc
    ghost var kubelet: bool
    ghost var containers: bool
    ghost var log: seq<Node>

    ghost function Now(): Node
      reads this
    {
      Node(fs, proc, kubelet, containers)
    }

    ghost predicate Valid()
      reads this
    {
      WellFormed(l) && |log| > 0 && log[|log| - 1] == Now() && Stepwise(l, log)
    }

    constructor (l: Layout, faults: nat -> Outcome, fs: Tree, ghost kubelet: bool, ghost containers: bool)
      requires WellFormed(l)
      ensures Valid() && this.l == l && Now() == Node(fs, NoProcess, kubelet, containers) && log == [Now()]
    {
      this.l, this.faults, this.fs, this.calls := l, faults, fs, 0;
      this.proc, this.kubelet, this.containers := NoProcess, kubelet, containers;
      this.log := [Node(fs, NoProcess, kubelet, containers)];
    }

    ghost method Note(to: Node)
      requires WellFormed(l) && |log| > 0 && Stepwise(l, log) && to.fs == fs
      requires Step(l, log[|log| - 1], to)
      modifies this`proc, this`kubelet, this`containers, this`log
      ensures Valid() && Now() == to && log == old(log) + [to]
    {
      hide Step;
      ghost var was := log;
      proc, kubelet, containers := to.proc, to.kubelet, to.containers;
      log := log + [to];
      forall i | 0 <= i < |log| - 1 ensures Step(l, log[i], log[i + 1]) {
        if i < |was| - 1 {
          assert Step(l, was[i], was[i + 1]);
        }
      }
    }

    /** stopKubelet: best effort. */
    method StopKubelet()
      requires Valid() && proc.NoProcess?
      modifies this
      ensures Valid() && log == old(log) + [Now()] && calls == old(calls) + 1
      ensures Now() == old(Now()).(proc := Resetting(0), kubelet := if faults(old(calls)).ok then false else old(kubelet))
    {
      ghost var stopped := faults(calls).ok;
      calls := calls + 1;
      Note(Now().(proc := Resetting(0), kubelet := if stopped then false else kubelet));
    }

    /** removeKubeContainers: best effort. */
    method RemoveKubeContainers()
      requires Valid() && proc == Resetting(0)
      modifies this
      ensures Valid() && log == old(log) + [Now()] && calls == old(calls) + 1
      ensures Now() == old(Now()).(containers := if faults(old(calls)).ok then false else old(containers))
    {
      ghost var removed := faults(calls).ok;
      calls := calls + 1;
      Note(Now().(containers := if removed then false else containers));
    }

    /** `os.RemoveAll` of the next tree. */
    method RemoveNext(p: Path) returns (ok: bool)
      requires Valid() && proc.Resetting? && proc.removed < TREES && p == Managed(l)[proc.removed]
      modifies this
      ensures Valid() && log == old(log) + [Now()] && kubelet == old(kubelet) && containers == old(containers)
      ensures exists rest: Tree :: rest.Items <= Sub(old(fs), p).Items && fs == Graft(old(fs), p, rest) && (ok ==> rest == map[])
      ensures proc == if ok then Resetting(old(proc.removed) + 1) else NoProcess
      ensures calls == old(calls) + 1 && ok == faults(old(calls)).ok
    {
      hide Sub, Graft, Managed;
      var outcome := faults(calls);
      ok := outcome.ok;
      var rest: Tree := if ok then map[] else Kept(Sub(fs, p), outcome.kept);
      assert rest.Items <= Sub(fs, p).Items;
      ghost var was := Now();
      fs, calls := Graft(fs, p, rest), calls + 1;
      ghost var proc' := if ok then Resetting(proc.removed + 1) else NoProcess;
      assert fs == Graft(was.fs, p, rest);
      assert RemoveTree(l, was, Now().(proc := proc'));
      Note(Now().(proc := proc'));
    }
  }

  /** The first `k` trees are gone; the later ones and everything else are as in `was`. */
  ghost predicate RemovedUpTo(l: Layout, was: Tree, fs: Tree, k: nat) {
    && k <= TREES
    && (forall i | 0 <= i < k :: !Exists(fs, Managed(l)[i]))
    && (forall i | k <= i < TREES :: Sub(fs, Managed(l)[i]) == Sub(was, Managed(l)[i]))
    && (forall p | forall i | 0 <= i < TREES :: Apart(Managed(l)[i], p) :: Sub(fs, p) == Sub(was, p))
  }

  lemma RemovesOneMore(l: Layout, was: Tree, fs: Tree, k: nat, fs': Tree, rest: Tree)
    requires WellFormed(l) && RemovedUpTo(l, was, fs, k) && k < TREES
    requires rest == map[] && fs' == Graft(fs, Managed(l)[k], rest)
    ensures RemovedUpTo(l, was, fs', k + 1)
  {
    hide Sub, Graft, Managed;
    forall i | 0 <= i < TREES ensures Sub(fs', Managed(l)[i]) == if i == k then map[] else Sub(fs, Managed(l)[i]) {
      RemovedAt(l, fs, k, rest, i);
    }
    forall p | forall i | 0 <= i < TREES :: Apart(Managed(l)[i], p) ensures Sub(fs', p) == Sub(was, p) {
      SubGraftApart(fs, Managed(l)[k], rest, p);
    }
  }

  /** In these moments the picokube directory cannot go while something still writes. */
  ghost predicate Quiet(log: seq<Node>, from: nat) {
    forall i | from <= i < |log| && log[i].proc == Resetting(VAR) :: !log[i].Busy()
  }

  /** Run: a reset that returns no error has removed the four trees and nothing else,
      so that `state.Exists` says no. Each call it makes is a step of the node above,
      and unless one fails the picokube directory goes quietly. */
  method RunReset(h: Host, mounts: Result<string>, kubeletDir: string, kernel: nat -> Errno) returns (ok: bool)
    requires h.Valid() && h.proc.NoProcess?
    modifies h
    ensures h.Valid() && old(h.log) <= h.log && h.proc.NoProcess?
    ensures ok ==> RemovedUpTo(h.l, old(h.fs), h.fs, TREES) && AllGone(h.l, h.fs) && !StateExists(h.l, h.fs)
    ensures mounts.Err? ==> !ok && h.fs == old(h.fs)
    ensures mounts.Ok? && (forall i: nat :: !kernel(i).OtherErrno?) && !ok ==> Faulty(h.faults, old(h.calls), h.calls)
    ensures Faulty(h.faults, old(h.calls), h.calls) || Quiet(h.log, |old(h.log)|)
  {
    hide Sub, Graft, Managed, Step, RemovedUpTo, AllGone, StateExists, Beneath, Targets, Split, Failures;
    h.StopKubelet();
    var processed, answers, errs;
    processed, answers, errs, ok := UnmountKubeletMounts(mounts, kubeletDir, kernel);
    if ok {
      h.RemoveKubeContainers();
      ok := RemoveTrees(h);
    }
    Quits(h);
    h.Note(h.Now().(proc := NoProcess));
    if ok {
      GoneMeansNoState(h.l, h.fs);
    }
  }

  /** The removal loop. */
  method RemoveTrees(h: Host) returns (ok: bool)
    requires h.Valid() && h.proc == Resetting(0)
    modifies h
    ensures old(h.calls) <= h.calls && (!ok ==> Faulty(h.faults, old(h.calls), h.calls))
    ensures ok ==> RemovedUpTo(h.l, old(h.fs), h.fs, TREES) && AllGone(h.l, h.fs)
    ensures h.kubelet == old(h.kubelet) && h.containers == old(h.containers)
    ensures !old(h.Now()).Busy() ==> Quiet(h.log, |old(h.log)|)
    ensures h.Valid() && old(h.log) <= h.log
  {
    hide Sub, Graft, Managed, Step, RemovedUpTo;
    ok := true;
    var k := 0;
    NothingRemoved(h.l, h.fs);
    while ok && k < TREES
      invariant 0 <= k <= TREES && h.Valid() && old(h.log) <= h.log
      invariant ok ==> h.proc == Resetting(k) && RemovedUpTo(h.l, old(h.fs), h.fs, k)
      invariant old(h.calls) <= h.calls && (!ok ==> Faulty(h.faults, old(h.calls), h.calls))
      invariant h.kubelet == old(h.kubelet) && h.containers == old(h.containers)
      invariant !old(h.Now()).Busy() ==> Quiet(h.log, |old(h.log)|)
      decreases TREES - k, ok
    {
      ghost var was := h.fs;
      ok := h.RemoveNext(Managed(h.l)[k]);
      if ok {
        ghost var rest: Tree :| rest == map[] && h.fs == Graft(was, Managed(h.l)[k], rest);
        RemovesOneMore(h.l, old(h.fs), was, k, h.fs, rest);
        k := k + 1;
      }
    }
    if ok {
      AllRemoved(h.l, old(h.fs), h.fs);
    }
  }

  lemma NothingRemoved(l: Layout, fs: Tree)
    ensures RemovedUpTo(l, fs, fs, 0)
  {}

  lemma AllRemoved(l: Layout, was: Tree, fs: Tree)
    requires RemovedUpTo(l, was, fs, TREES)
    ensures AllGone(l, fs)
  {}

  lemma Quits(h: Host)
    requires h.Valid()
    ensures Step(h.l, h.log[|h.log| - 1], h.Now().(proc := NoProcess))
  {
    hide Sub, Graft;
    assert Die(h.log[|h.log| - 1], h.Now().(proc := NoProcess));
  }

  lemma GoneMeansNoState(l: Layout, fs: Tree)
    requires AllGone(l, fs)
    ensures !StateExists(l, fs)
  {
    hide Sub;
    assert !Exists(fs, Managed(l)[0]) && !Exists(fs, Managed(l)[VAR]);
    if Exists(fs, KubeAPIServerManifest(l)) {
      ExistsAbove(fs, l.kubernetesDir, ["manifests", "kube-apiserver.yaml"]);
    }
  }
}
