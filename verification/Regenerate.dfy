/** internal/certs.RegenerateCA on disk: stage, delete, re-issue, swap, then the
    kubeconfigs. At every moment the live PKI directory is the old one or the new
    one, whole. */
module Regenerate {
  import opened Types
  import opened Trees
  import opened Protocol
  import opened Layouts
  import opened Effects
  import opened Disks
  import opened Moves
  import opened Swap
  import opened Pki

  function Kube(l: Layout, m: Moment): Tree {
    Sub(m.fs, l.kubernetesDir)
  }

  /** Between `s` and `t` only the kubernetes tree and the clock have changed. */
  ghost predicate Reconciled(s: State, t: State) {
    && Later(s, t) && |s.store.live| == |t.store.live| == PARTS
    && t == s.Live(s.store.live[KUBERNETES := t.store.live[KUBERNETES]], t.store.clock)
  }

  // ---- operations below the kubernetes directory ----

  lemma KubeView(l: Layout, m: Moment, x: Path, t: Tree)
    requires WellFormed(l)
    ensures var m' := After(l, m, l.kubernetesDir + x, t);
            && Kube(l, m') == Graft(Kube(l, m), x, t)
            && m'.mtimes == m.mtimes
            && Reconciled(View(l, m), View(l, m')) && View(l, m').store.clock == m.clock + 1
  {
    hide Sub, Graft, Backups, Exists;
    var p := LivePath(l, 1);
    var m' := After(l, m, p + x, t);
    SubGraftAbove(m.fs, p, x, t);
    LiveKeepsTheRest(l, m, 1, t, x);
    forall i: nat | i < PARTS ensures i != 1 ==> Live(l, m'.fs)[i] == Live(l, m.fs)[i] {
      if i != 1 {
        LiveApart(l, i, 1);
        ApartBelow(LivePath(l, i), p, x);
        ApartSymmetric(LivePath(l, i), p + x);
        SubGraftApart(m.fs, p + x, t, LivePath(l, i));
      }
    }
    assert Live(l, m'.fs) == Live(l, m.fs)[KUBERNETES := Live(l, m'.fs)[KUBERNETES]];
    NotInBackups(l, x);
  }

  lemma NotInBackups(l: Layout, x: Path)
    requires WellFormed(l)
    ensures !Under(l.BackupsDir(), l.kubernetesDir + x) && !Under(l.kubernetesDir + x, l.picoKubeVarDir)
  {
    RootsApart(l, 0, 1, ["backups"], x);
    RootsApart(l, 0, 1, [], x);
    assert l.picoKubeVarDir + [] == l.picoKubeVarDir;
  }

  /** A guarded change of the kubernetes tree is a reconcile step. */
  lemma ReconcileCan(l: Layout, m: Moment, m': Moment)
    requires m.mark.pc.Gated? && m'.mark == m.mark && m.clock < m'.clock
    requires Reconciled(View(l, m), View(l, m')) && Guarded(Kube(l, m), Kube(l, m'))
    ensures Can(l, m, m')
  {
    hide Sub, Backups, HasCAs, NoSuperAdmin, Exists;
    assert Reconcile(View(l, m), View(l, m'));
  }

  lemma KubeCan(l: Layout, m: Moment, x: Path, t: Tree)
    requires WellFormed(l) && m.mark.pc.Gated? && Guarded(Kube(l, m), Graft(Kube(l, m), x, t))
    ensures Can(l, m, After(l, m, l.kubernetesDir + x, t))
  {
    hide Sub, Graft, StoreOf, Can, Reconciled, Guarded;
    KubeView(l, m, x, t);
    ReconcileCan(l, m, After(l, m, l.kubernetesDir + x, t));
  }

  /** Entries of the kubernetes directory do not interfere. */
  lemma OtherEntry(k: Tree, a: string, x: Path, t: Tree, b: string)
    requires a != b
    ensures Sub(Graft(k, [a] + x, t), [b]) == Sub(k, [b])
  {
    ApartSiblings([], a, x, b, []);
    assert [] + [a] + x == [a] + x && [] + [b] + [] == [b];
    SubGraftApart(k, [a] + x, t, [b]);
  }

  lemma InEntry(k: Tree, a: string, x: Path, t: Tree)
    ensures Sub(Graft(k, [a] + x, t), [a]) == Graft(Sub(k, [a]), x, t)
  {
    SubGraftAbove(k, [a], x, t);
  }

  /** The guard looks at the PKI directory and at super-admin.conf. */
  lemma GuardSame(k: Tree, k': Tree)
    requires Sub(k', [PKI]) == Sub(k, [PKI]) && Sub(k', ["super-admin.conf"]) == Sub(k, ["super-admin.conf"])
    ensures Guarded(k, k')
  {
    hide Sub;
    forall ca: CA ensures Exists(k', [PKI] + Crt(Authority(ca))) == Exists(k, [PKI] + Crt(Authority(ca))) {
      SubOfSub(k, [PKI], Crt(Authority(ca)));
      SubOfSub(k', [PKI], Crt(Authority(ca)));
    }
  }

  lemma GuardNewPki(k: Tree, k': Tree)
    requires forall ca: CA :: Present(Sub(k', [PKI]), Authority(ca))
    requires Sub(k', ["super-admin.conf"]) == Sub(k, ["super-admin.conf"])
    ensures Guarded(k, k')
  {
    hide Sub;
    forall ca: CA ensures Exists(k', [PKI] + Crt(Authority(ca))) {
      assert Present(Sub(k', [PKI]), Authority(ca));
      SubOfSub(k', [PKI], Crt(Authority(ca)));
      InSub(Sub(k', [PKI]), Crt(Authority(ca)), []);
      assert Crt(Authority(ca)) + [] == Crt(Authority(ca));
    }
  }

  // ---- one regeneration ----

  /** A call of `RegenerateCA`: the kubernetes tree it starts from, the CA, and what
      kubeadm will issue. */
  datatype Regen = Regen(was: Tree, ca: CA, issue: Issuance) {
    function New(): Result<Tree> { NewPki(Sub(was, [PKI]), ca, issue) }
    function NewKey(): nat { issue(Crt(Authority(ca))).key }
    function Conf(name: string): Tree { Trees.Leaf(NewConf(issue([name]), NewKey())) }
  }

  predicate NewIn(r: Regen, k: Tree) {
    r.New().Ok? && Sub(k, [PKI]) == r.New().value
  }

  predicate Touchable(r: Regen, name: string) {
    name == REGEN || name == CONF_STAGE || name == PKI || name in DependentKubeconfigs(r.ca)
  }

  /** What is live: the PKI directory is the old one or the whole new one; each
      kubeconfig is the old one or, under the new CA, the whole new one; and nothing
      else is touched. */
  ghost predicate Untorn(r: Regen, k: Tree) {
    && (Sub(k, [PKI]) == Sub(r.was, [PKI]) || NewIn(r, k))
    && (forall name | name in DependentKubeconfigs(r.ca) ::
          Sub(k, [name]) == Sub(r.was, [name]) || (NewIn(r, k) && Sub(k, [name]) == r.Conf(name)))
    && (forall name | !Touchable(r, name) :: Sub(k, [name]) == Sub(r.was, [name]))
  }

  lemma EntryNames(ca: CA)
    ensures PKI !in DependentKubeconfigs(ca) && REGEN !in DependentKubeconfigs(ca) && CONF_STAGE !in DependentKubeconfigs(ca)
    ensures "super-admin.conf" !in DependentKubeconfigs(ca)
    ensures PKI != REGEN && PKI != CONF_STAGE && REGEN != CONF_STAGE
    ensures "super-admin.conf" != PKI && "super-admin.conf" != REGEN && "super-admin.conf" != CONF_STAGE
  {
    var ns := DependentKubeconfigs(ca);
    assert |PKI| == 3 && |REGEN| == 9 && |CONF_STAGE| == 17 && |"super-admin.conf"| == 16;
    forall i | 0 <= i < |ns| ensures |ns[i]| == 10 || |ns[i]| == 23 || |ns[i]| == 14 || |ns[i]| == 12 {
      assert |"admin.conf"| == 10 && |"controller-manager.conf"| == 23 && |"scheduler.conf"| == 14 && |"kubelet.conf"| == 12;
    }
  }

  /** Changing only a staging entry leaves everything live as it is. */
  lemma StageOp(l: Layout, m: Moment, r: Regen, a: string, x: Path, t: Tree)
    requires WellFormed(l) && m.mark.pc.Gated? && Untorn(r, Kube(l, m)) && (a == REGEN || a == CONF_STAGE)
    ensures var m' := After(l, m, l.kubernetesDir + ([a] + x), t);
            && Can(l, m, m') && Can(l, m, m'.(mark := m.mark)) && m'.(mark := m.mark) == m' && Reconciled(View(l, m), View(l, m'))
            && Untorn(r, Kube(l, m')) && Sub(Kube(l, m'), [PKI]) == Sub(Kube(l, m), [PKI])
            && (forall b | b != a :: Sub(Kube(l, m'), [b]) == Sub(Kube(l, m), [b]))
            && Sub(Kube(l, m'), [a]) == Graft(Sub(Kube(l, m), [a]), x, t)
  {
    hide Sub, Graft, StoreOf, Can, Reconciled, Guarded, Untorn;
    StageTrees(r, Kube(l, m), a, x, t);
    KubeCan(l, m, [a] + x, t);
    KubeView(l, m, [a] + x, t);
  }

  /** The same on the kubernetes tree. */
  lemma StageTrees(r: Regen, k: Tree, a: string, x: Path, t: Tree)
    requires Untorn(r, k) && (a == REGEN || a == CONF_STAGE)
    ensures var k' := Graft(k, [a] + x, t);
            && Untorn(r, k') && Guarded(k, k') && Sub(k', [PKI]) == Sub(k, [PKI])
            && (forall b | b != a :: Sub(k', [b]) == Sub(k, [b])) && Sub(k', [a]) == Graft(Sub(k, [a]), x, t)
  {
    hide Sub, Graft, Guarded, Untorn, DependentKubeconfigs;
    var k' := Graft(k, [a] + x, t);
    EntryNames(r.ca);
    forall b | b != a ensures Sub(k', [b]) == Sub(k, [b]) {
      OtherEntry(k, a, x, t, b);
    }
    InEntry(k, a, x, t);
    GuardSame(k, k');
    SameUntorn(r, k, k', a);
  }

  lemma SameUntorn(r: Regen, k: Tree, k': Tree, a: string)
    requires Untorn(r, k) && (a == REGEN || a == CONF_STAGE)
    requires forall b | b != a :: Sub(k', [b]) == Sub(k, [b])
    ensures Untorn(r, k')
  {
    hide Sub, DependentKubeconfigs;
    EntryNames(r.ca);
  }

  /** An entry of the kubernetes directory as it is now. */
  ghost function Entry(d: Disk, name: string): Tree
    reads d
  {
    Sub(Kube(d.l, d.Now()), [name])
  }

  lemma PkiHere(d: Disk)
    ensures Entry(d, PKI) == Sub(Kube(d.l, d.Now()), [PKI])
  {}

  /** A regeneration is under way: everything live has been whole since moment `n`. */
  ghost predicate Underway(d: Disk, r: Regen, s: State, n: nat)
    reads d
  {
    && d.Valid() && d.mark.pc.Gated? && Reconciled(s, d.State()) && n <= |d.log|
    && Untorn(r, Kube(d.l, d.Now()))
    && forall i | n <= i < |d.log| :: Untorn(r, Kube(d.l, d.log[i]))
  }

  lemma ReconciledTransitive(s: State, t: State, u: State)
    requires Reconciled(s, t) && Reconciled(t, u)
    ensures Reconciled(s, u)
  {}

  lemma TickedReconciles(l: Layout, m: Moment)
    ensures Reconciled(View(l, m), View(l, Ticked(m))) && Kube(l, Ticked(m)) == Kube(l, m)
  {
    var s := View(l, m);
    assert s.store.live == s.store.live[KUBERNETES := s.store.live[KUBERNETES]];
  }

  /** The moments after one call, when the calls before were fine. */
  lemma StaysUnderway(d: Disk, r: Regen, s: State, n: nat, log: seq<Moment>, m: Moment)
    requires d.Valid() && d.mark.pc.Gated? && d.log == log + [d.Now()] && n <= |log|
    requires Reconciled(s, View(d.l, m)) && Reconciled(View(d.l, m), d.State())
    requires Untorn(r, Kube(d.l, d.Now())) && forall i | n <= i < |log| :: Untorn(r, Kube(d.l, log[i]))
    ensures Underway(d, r, s, n)
  {
    hide Untorn, Reconciled, Sub, StoreOf;
    ReconciledTransitive(s, View(d.l, m), d.State());
  }

  method RemoveStage(d: Disk, a: string, ghost r: Regen, ghost s: State, ghost n: nat) returns (ok: bool)
    requires Underway(d, r, s, n) && (a == REGEN || a == CONF_STAGE)
    modifies d
    ensures old(d.clock) <= d.clock && (!ok ==> Faulty(d.faults, old(d.clock), d.clock))
    ensures forall b | b != a :: Entry(d, b) == old(Entry(d, b))
    ensures ok ==> Entry(d, a) == map[]
    ensures Underway(d, r, s, n) && old(d.log) <= d.log && d.mark == old(d.mark)
  {
    hide Can, Sub, Graft, View, Untorn, Reconciled, WellFormed, Steps, NewPki;
    ghost var m, log := d.Now(), d.log;
    var p := d.l.kubernetesDir + ([a] + []);
    forall t: Tree ensures Can(d.l, m, After(d.l, m, p, t)) {
      StageOp(d.l, m, r, a, [], t);
    }
    StageOp(d.l, m, r, a, [], map[]);
    NotInBackups(d.l, [a] + []);
    ok := d.RemoveAll(p, d.mark);
    ghost var t := if ok then map[] else Kept(Sub(m.fs, p), d.faults(m.clock).kept);
    StageOp(d.l, m, r, a, [], t);
    StaysUnderway(d, r, s, n, log, m);
    if ok {
      GraftAll(Sub(Kube(d.l, m), [a]), map[]);
    }
  }

  lemma GraftAll(t: Tree, u: Tree)
    ensures Graft(t, [], u) == u
  {
    hide Graft, Sub;
    SubGraftSame(t, [], u);
    SubAll(Graft(t, [], u));
  }

  /** copyPKITree. */
  method CopyPKITree(d: Disk, ghost r: Regen, ghost s: State, ghost n: nat) returns (ok: bool)
    requires Underway(d, r, s, n)
    modifies d
    ensures old(d.clock) <= d.clock && (!ok ==> Faulty(d.faults, old(d.clock), d.clock))
    ensures Entry(d, PKI) == old(Entry(d, PKI))
    ensures ok ==> Entry(d, REGEN) == Entry(d, PKI)
    ensures Underway(d, r, s, n) && old(d.log) < d.log && d.mark == old(d.mark)
  {
    hide Can, Sub, Graft, View, Untorn, Reconciled, WellFormed, Steps, NewPki;
    ghost var m, log := d.Now(), d.log;
    var p := d.l.kubernetesDir + ([REGEN] + []);
    forall t: Tree ensures Can(d.l, m, After(d.l, m, p, t)) {
      StageOp(d.l, m, r, REGEN, [], t);
    }
    StageOp(d.l, m, r, REGEN, [], Sub(m.fs, d.l.PkiDir()));
    NotInBackups(d.l, [REGEN] + []);
    ok := d.Copy(d.l.PkiDir(), p, d.mark);
    ghost var t := if ok then Sub(m.fs, d.l.PkiDir()) else d.faults(m.clock).debris;
    StageOp(d.l, m, r, REGEN, [], t);
    StaysUnderway(d, r, s, n, log, m);
    SubOfSub(m.fs, d.l.kubernetesDir, [PKI]);
    GraftAll(Sub(Kube(d.l, m), [REGEN]), t);
  }

  /** Deletes the CA and its leaves in staging; a missing file is no error. */
  method DeleteInStage(d: Disk, toDelete: seq<Path>, ghost r: Regen, ghost s: State, ghost n: nat) returns (ok: bool)
    requires Underway(d, r, s, n)
    modifies d
    ensures old(d.clock) <= d.clock && (!ok ==> Faulty(d.faults, old(d.clock), d.clock))
    ensures Entry(d, PKI) == old(Entry(d, PKI))
    ensures ok ==> Entry(d, REGEN) == Deleted(old(Entry(d, REGEN)), toDelete)
    ensures Underway(d, r, s, n) && old(d.log) <= d.log && d.mark == old(d.mark)
  {
    hide Can, Sub, Graft, View, Underway, WellFormed, Steps, NewPki;
    ghost var stage := Entry(d, REGEN);
    ok := true;
    var i := 0;
    while ok && i < |toDelete|
      invariant 0 <= i <= |toDelete| && Underway(d, r, s, n) && old(d.log) <= d.log && d.mark == old(d.mark)
      invariant Entry(d, PKI) == old(Entry(d, PKI))
      invariant ok ==> Entry(d, REGEN) == Deleted(stage, toDelete[..i])
      invariant old(d.clock) <= d.clock && (!ok ==> Faulty(d.faults, old(d.clock), d.clock))
      decreases |toDelete| - i, ok
    {
      ok := RemoveInStage(d, toDelete[i], r, s, n);
      assert toDelete[..i + 1][..i] == toDelete[..i];
      i := i + 1;
    }
    assert toDelete[..|toDelete|] == toDelete;
  }

  method RemoveInStage(d: Disk, x: Path, ghost r: Regen, ghost s: State, ghost n: nat) returns (ok: bool)
    requires Underway(d, r, s, n)
    modifies d
    ensures old(d.clock) <= d.clock && (!ok ==> Faulty(d.faults, old(d.clock), d.clock))
    ensures Entry(d, PKI) == old(Entry(d, PKI))
    ensures ok ==> Entry(d, REGEN) == Graft(old(Entry(d, REGEN)), x, map[])
    ensures Underway(d, r, s, n) && old(d.log) <= d.log && d.mark == old(d.mark)
  {
    hide Can, Sub, Graft, View, Untorn, Reconciled, WellFormed, Steps, NewPki;
    ghost var m, log := d.Now(), d.log;
    StageOp(d.l, m, r, REGEN, x, map[]);
    TickCan(d.l, m);
    TickedReconciles(d.l, m);
    NotInBackups(d.l, [REGEN] + x);
    ok := d.Remove(d.l.kubernetesDir + ([REGEN] + x), d.mark);
    StaysUnderway(d, r, s, n, log, m);
  }

  /** `CreatePKIAssets` pointed at the staging directory. */
  method CreatePKIAssets(d: Disk, issue: Issuance, ghost r: Regen, ghost s: State, ghost n: nat) returns (ok: bool)
    requires Underway(d, r, s, n)
    modifies d
    ensures old(d.clock) <= d.clock
    ensures !ok ==> Faulty(d.faults, old(d.clock), d.clock) || Assets(old(Entry(d, REGEN)), issue).Err?
    ensures Entry(d, PKI) == old(Entry(d, PKI))
    ensures ok ==> Assets(old(Entry(d, REGEN)), issue) == Ok(Entry(d, REGEN))
    ensures Underway(d, r, s, n) && old(d.log) <= d.log && d.mark == old(d.mark)
  {
    hide Can, Sub, Graft, View, Untorn, Reconciled, WellFormed, Steps, NewPki, Assets;
    ghost var m, log := d.Now(), d.log;
    var p := d.l.kubernetesDir + ([REGEN] + []);
    SubOfSub(m.fs, d.l.kubernetesDir, [REGEN]);
    assert p == d.l.kubernetesDir + [REGEN];
    var made := Assets(Sub(d.fs, p), issue);
    forall t: Tree ensures Can(d.l, m, After(d.l, m, p, t)) {
      StageOp(d.l, m, r, REGEN, [], t);
    }
    ghost var debris := d.faults(m.clock).debris;
    NotInBackups(d.l, [REGEN] + []);
    ok := d.Write(p, if made.Ok? then made.value else d.faults(d.clock).debris);
    ghost var t := if ok && made.Ok? then made.value else debris;
    StageOp(d.l, m, r, REGEN, [], t);
    StaysUnderway(d, r, s, n, log, m);
    GraftAll(Sub(Kube(d.l, m), [REGEN]), t);
    ok := ok && made.Ok?;
  }

  // ---- the swap ----

  ghost predicate SameButPki(k: Tree, k': Tree) {
    forall name | name != REGEN && name != PKI :: Sub(k', [name]) == Sub(k, [name])
  }

  lemma ExchangeOp(l: Layout, m: Moment, r: Regen)
    requires WellFormed(l) && m.mark.pc.Gated? && Untorn(r, Kube(l, m))
    requires r.New().Ok? && Sub(Kube(l, m), [REGEN]) == r.New().value
    ensures var m' := Exchanged(m, l.kubernetesDir + [REGEN], l.kubernetesDir + [PKI]).(mark := m.mark);
            && Can(l, m, m') && Reconciled(View(l, m), View(l, m')) && NewIn(r, Kube(l, m')) && Untorn(r, Kube(l, m'))
            && SameButPki(Kube(l, m), Kube(l, m'))
  {
    hide Sub, Graft, StoreOf, Can, Reconciled, Guarded, NewPki, Untorn;
    var a, b, k := l.kubernetesDir + [REGEN], l.kubernetesDir + [PKI], Kube(l, m);
    var x, y := Sub(k, [PKI]), Sub(k, [REGEN]);
    SubOfSub(m.fs, l.kubernetesDir, [PKI]);
    SubOfSub(m.fs, l.kubernetesDir, [REGEN]);
    KubeView(l, m, [REGEN], x);
    var m1 := After(l, m, a, x);
    KubeView(l, m1, [PKI], y);
    var m2 := After(l, m1, b, y);
    var m' := Exchanged(m, a, b).(mark := m.mark);
    assert m' == m2.(clock := m.clock + 1);
    ReconciledTransitive(View(l, m), View(l, m1), View(l, m2));
    Sooner(l, m, m2, m');
    EntryNames(r.ca);
    var k' := Kube(l, m');
    forall name | name != REGEN && name != PKI ensures Sub(k', [name]) == Sub(k, [name]) {
      OtherEntry(k, REGEN, [], x, name);
      OtherEntry(Kube(l, m1), PKI, [], y, name);
      assert [REGEN] + [] == [REGEN] && [PKI] + [] == [PKI];
    }
    SubGraftSame(Kube(l, m1), [PKI], y);
    SwapUntorn(r, k, k');
    GuardNewPki(k, k');
    ReconcileCan(l, m, m');
  }

  /** The same disk, read one tick earlier. */
  lemma Sooner(l: Layout, m: Moment, m2: Moment, m': Moment)
    requires m' == m2.(clock := m.clock + 1) && Reconciled(View(l, m), View(l, m2))
    ensures Reconciled(View(l, m), View(l, m'))
  {}

  lemma SwapUntorn(r: Regen, k: Tree, k': Tree)
    requires Untorn(r, k) && r.New().Ok? && Sub(k', [PKI]) == r.New().value
    requires forall name | name != REGEN && name != PKI :: Sub(k', [name]) == Sub(k, [name])
    ensures Untorn(r, k')
  {
    hide Sub, DependentKubeconfigs;
    EntryNames(r.ca);
  }

  method SwapPki(d: Disk, ghost r: Regen, ghost s: State, ghost n: nat) returns (ok: bool)
    requires Underway(d, r, s, n) && r.New().Ok? && Entry(d, REGEN) == r.New().value
    modifies d
    ensures old(d.clock) <= d.clock && (!ok ==> Faulty(d.faults, old(d.clock), d.clock))
    ensures ok ==> NewIn(r, Kube(d.l, d.Now())) && SameButPki(old(Kube(d.l, d.Now())), Kube(d.l, d.Now()))
    ensures Underway(d, r, s, n) && old(d.log) <= d.log && d.mark == old(d.mark)
  {
    hide Can, Sub, Graft, View, Untorn, Reconciled, WellFormed, Steps, NewPki, Exchanged, SameButPki;
    ghost var m, log := d.Now(), d.log;
    ghost var a, b := d.l.kubernetesDir + [REGEN], d.l.kubernetesDir + [PKI];
    ExchangeOp(d.l, m, r);
    NotInBackups(d.l, [PKI]);
    NotInBackups(d.l, [REGEN]);
    ok := SwapDir(d, d.l.kubernetesDir + [REGEN], d.l.kubernetesDir + [PKI], d.mark);
    forall i | |log| <= i < |d.log| ensures Untorn(r, Kube(d.l, d.log[i])) {
      EitherWay(d.l, m, a, b, d.log[i], r);
    }
    EitherWay(d.l, m, a, b, d.Now(), r);
    ReconciledTransitive(s, View(d.l, m), d.State());
  }

  lemma EitherWay(l: Layout, m: Moment, a: Path, b: Path, x: Moment, r: Regen)
    requires x == Ticked(m) || Swap.Swapped(m, a, b, m.mark, x)
    requires var m' := Exchanged(m, a, b).(mark := m.mark);
             Reconciled(View(l, m), View(l, m')) && NewIn(r, Kube(l, m')) && Untorn(r, Kube(l, m'))
             && SameButPki(Kube(l, m), Kube(l, m'))
    requires Untorn(r, Kube(l, m))
    ensures x.mark == m.mark && Untorn(r, Kube(l, x)) && Reconciled(View(l, m), View(l, x))
    ensures Swap.Swapped(m, a, b, m.mark, x) ==> NewIn(r, Kube(l, x)) && SameButPki(Kube(l, m), Kube(l, x))
  {
    hide Untorn, NewIn, Sub, Graft, SameButPki;
    TickedReconciles(l, m);
  }

  // ---- the kubeconfigs ----

  lemma ConfRename(l: Layout, m: Moment, r: Regen, name: string)
    requires WellFormed(l) && m.mark.pc.Gated? && Untorn(r, Kube(l, m)) && NewIn(r, Kube(l, m))
    requires name in DependentKubeconfigs(r.ca) && Sub(Sub(Kube(l, m), [CONF_STAGE]), [name]) == r.Conf(name)
    ensures var m' := Renamed(l, m, l.kubernetesDir + [CONF_STAGE] + [name], l.kubernetesDir + [name]).(mark := m.mark);
            && Can(l, m, m') && Reconciled(View(l, m), View(l, m')) && Untorn(r, Kube(l, m')) && NewIn(r, Kube(l, m'))
            && Sub(Kube(l, m'), [name]) == r.Conf(name)
            && forall b | b != name && b != CONF_STAGE :: Sub(Kube(l, m'), [b]) == Sub(Kube(l, m), [b])
  {
    hide Sub, Graft, StoreOf, Can, Reconciled, Guarded, NewPki, Untorn, DependentKubeconfigs, NewIn;
    var k, x := Kube(l, m), r.Conf(name);
    var src, dst := l.kubernetesDir + [CONF_STAGE] + [name], l.kubernetesDir + [name];
    assert src == l.kubernetesDir + ([CONF_STAGE] + [name]);
    SubOfSub(m.fs, l.kubernetesDir, [CONF_STAGE]);
    SubOfSub(m.fs, l.kubernetesDir + [CONF_STAGE], [name]);
    KubeView(l, m, [CONF_STAGE] + [name], map[]);
    var m1 := After(l, m, src, map[]);
    KubeView(l, m1, [name], x);
    var m2 := After(l, m1, dst, x);
    NotInBackups(l, [CONF_STAGE] + [name]);
    var m' := Renamed(l, m, src, dst).(mark := m.mark);
    assert m' == m2.(clock := m.clock + 1);
    ReconciledTransitive(View(l, m), View(l, m1), View(l, m2));
    Sooner(l, m, m2, m');
    ConfTrees(r, k, name);
    ReconcileCan(l, m, m');
  }

  /** The rename, on the kubernetes tree. */
  lemma ConfTrees(r: Regen, k: Tree, name: string)
    requires Untorn(r, k) && NewIn(r, k) && name in DependentKubeconfigs(r.ca)
    ensures var k' := Graft(Graft(k, [CONF_STAGE] + [name], map[]), [name], r.Conf(name));
            && Untorn(r, k') && NewIn(r, k') && Guarded(k, k') && Sub(k', [name]) == r.Conf(name)
            && forall b | b != name && b != CONF_STAGE :: Sub(k', [b]) == Sub(k, [b])
  {
    hide Sub, Graft, Guarded, NewPki, Untorn, DependentKubeconfigs, NewIn;
    var x := r.Conf(name);
    var k1 := Graft(k, [CONF_STAGE] + [name], map[]);
    var k' := Graft(k1, [name], x);
    EntryNames(r.ca);
    forall b | b != name && b != CONF_STAGE ensures Sub(k', [b]) == Sub(k, [b]) {
      OtherEntry(k, CONF_STAGE, [name], map[], b);
      OtherEntry(k1, name, [], x, b);
      assert [name] + [] == [name];
    }
    SubGraftSame(k1, [name], x);
    ConfUntorn(r, k, k', name);
    GuardSame(k, k');
  }

  lemma ConfUntorn(r: Regen, k: Tree, k': Tree, name: string)
    requires Untorn(r, k) && NewIn(r, k) && name in DependentKubeconfigs(r.ca) && Sub(k', [name]) == r.Conf(name)
    requires forall b | b != name && b != CONF_STAGE :: Sub(k', [b]) == Sub(k, [b])
    ensures Untorn(r, k') && NewIn(r, k')
  {
    hide Sub, DependentKubeconfigs;
    EntryNames(r.ca);
  }

  /** `os.MkdirTemp` and kubeadm's `CreateKubeConfigFile` into it. The random suffix
      of the directory is not modelled: it replaces one an earlier death left. */
  method StageKubeconfig(d: Disk, name: string, issue: Issuance, ghost r: Regen, ghost s: State, ghost n: nat) returns (ok: bool)
    requires Underway(d, r, s, n) && NewIn(r, Kube(d.l, d.Now())) && name in DependentKubeconfigs(r.ca) && r.issue == issue
    modifies d
    ensures old(d.clock) <= d.clock && (!ok ==> Faulty(d.faults, old(d.clock), d.clock))
    ensures forall b | b != CONF_STAGE :: Entry(d, b) == old(Entry(d, b))
    ensures ok ==> Sub(Entry(d, CONF_STAGE), [name]) == r.Conf(name)
    ensures Underway(d, r, s, n) && old(d.log) <= d.log && d.mark == old(d.mark)
  {
    hide Can, Sub, Graft, View, Untorn, Reconciled, WellFormed, Steps, NewPki;
    ok := StageWrite(d, [], EMPTY_DIR, r, s, n);
    if !ok { return; }
    PkiHere(d);
    var pki := Sub(d.fs, d.l.kubernetesDir + [PKI]);
    SubOfSub(d.fs, d.l.kubernetesDir, [PKI]);
    NewPkiOwned(r, name);
    if !Owned(pki, ClusterCA) { return false; }
    var conf := Trees.Leaf(NewConf(issue([name]), CertAt(pki, Crt(Authority(ClusterCA))).value.key));
    ghost var dir := Entry(d, CONF_STAGE);
    ok := StageWrite(d, [name], conf, r, s, n);
    SubGraftSame(dir, [name], conf);
  }

  /** Kubeconfigs depend on the cluster CA, whose new key is on disk. */
  lemma NewPkiOwned(r: Regen, name: string)
    requires r.New().Ok? && name in DependentKubeconfigs(r.ca)
    ensures r.ca == ClusterCA && Owned(r.New().value, ClusterCA)
    ensures CertAt(r.New().value, Crt(Authority(ClusterCA))).value.key == r.NewKey()
  {
    hide NewPki;
    NewPkiReplaces(Sub(r.was, [PKI]), r.ca, r.issue);
  }

  /** Writes below the temporary directory. */
  method StageWrite(d: Disk, x: Path, t: Tree, ghost r: Regen, ghost s: State, ghost n: nat) returns (ok: bool)
    requires Underway(d, r, s, n)
    modifies d
    ensures old(d.clock) <= d.clock && (!ok ==> Faulty(d.faults, old(d.clock), d.clock))
    ensures forall b | b != CONF_STAGE :: Entry(d, b) == old(Entry(d, b))
    ensures ok ==> Entry(d, CONF_STAGE) == Graft(old(Entry(d, CONF_STAGE)), x, t)
    ensures Underway(d, r, s, n) && old(d.log) <= d.log && d.mark == old(d.mark)
  {
    hide Can, Sub, Graft, View, Untorn, Reconciled, WellFormed, Steps, NewPki;
    ghost var m, log := d.Now(), d.log;
    var p := d.l.kubernetesDir + ([CONF_STAGE] + x);
    forall u: Tree ensures Can(d.l, m, After(d.l, m, p, u)) {
      StageOp(d.l, m, r, CONF_STAGE, x, u);
    }
    NotInBackups(d.l, [CONF_STAGE] + x);
    ok := d.Write(p, t);
    StageOp(d.l, m, r, CONF_STAGE, x, if ok then t else d.faults(m.clock).debris);
    StaysUnderway(d, r, s, n, log, m);
  }

  method MoveKubeconfig(d: Disk, name: string, ghost r: Regen, ghost s: State, ghost n: nat) returns (ok: bool)
    requires Underway(d, r, s, n) && NewIn(r, Kube(d.l, d.Now())) && name in DependentKubeconfigs(r.ca)
    requires Sub(Entry(d, CONF_STAGE), [name]) == r.Conf(name)
    modifies d
    ensures old(d.clock) <= d.clock && (!ok ==> Faulty(d.faults, old(d.clock), d.clock))
    ensures forall b | b != name && b != CONF_STAGE :: Entry(d, b) == old(Entry(d, b))
    ensures ok ==> Entry(d, name) == r.Conf(name)
    ensures Underway(d, r, s, n) && old(d.log) <= d.log && d.mark == old(d.mark)
  {
    hide Can, Sub, Graft, View, Untorn, Reconciled, WellFormed, Steps, NewPki, Renamed;
    ghost var m, log := d.Now(), d.log;
    ConfRename(d.l, m, r, name);
    TickCan(d.l, m);
    TickedReconciles(d.l, m);
    NotInBackups(d.l, [CONF_STAGE] + [name]);
    NotInBackups(d.l, [name]);
    assert d.l.kubernetesDir + [CONF_STAGE] + [name] == d.l.kubernetesDir + ([CONF_STAGE] + [name]);
    ok := d.Rename(d.l.kubernetesDir + [CONF_STAGE] + [name], d.l.kubernetesDir + [name], d.mark);
    StaysUnderway(d, r, s, n, log, m);
  }

  /** A sync or a query during regeneration. */
  method Pause(d: Disk, ghost r: Regen, ghost s: State, ghost n: nat) returns (ok: bool)
    requires Underway(d, r, s, n)
    modifies d
    ensures old(d.clock) <= d.clock && (!ok ==> Faulty(d.faults, old(d.clock), d.clock))
    ensures Kube(d.l, d.Now()) == old(Kube(d.l, d.Now()))
    ensures Underway(d, r, s, n) && old(d.log) <= d.log && d.mark == old(d.mark)
  {
    hide Can, Sub, Graft, View, Untorn, Reconciled, WellFormed, Steps, NewPki;
    ghost var m, log := d.Now(), d.log;
    TickCan(d.l, m);
    TickedReconciles(d.l, m);
    ok := d.Attempt();
    StaysUnderway(d, r, s, n, log, m);
  }

  /** writeKubeconfigAtomic. */
  method WriteKubeconfigAtomic(d: Disk, name: string, issue: Issuance, ghost r: Regen, ghost s: State, ghost n: nat) returns (ok: bool)
    requires Underway(d, r, s, n) && NewIn(r, Kube(d.l, d.Now())) && name in DependentKubeconfigs(r.ca) && r.issue == issue
    modifies d
    ensures old(d.clock) <= d.clock && (!ok ==> Faulty(d.faults, old(d.clock), d.clock))
    ensures forall b | b != name && b != CONF_STAGE :: Entry(d, b) == old(Entry(d, b))
    ensures ok ==> Entry(d, name) == r.Conf(name)
    ensures Underway(d, r, s, n) && old(d.log) <= d.log && d.mark == old(d.mark)
  {
    hide Sub, Graft, View, Underway, NewPki, DependentKubeconfigs;
    EntryNames(r.ca);
    ok := StageKubeconfig(d, name, issue, r, s, n);
    PkiHere(d);
    NewInSame(r);
    if ok {
      ok := MoveKubeconfig(d, name, r, s, n);
    }
    if ok {
      ok := Pause(d, r, s, n);
    }
    var _ := RemoveStage(d, CONF_STAGE, r, s, n);
  }

  // ---- RegenerateCA ----

  /** Collects what to delete, deletes it in staging, and has kubeadm re-issue it. */
  method PopulateStage(d: Disk, ca: CA, issue: Issuance, ghost r: Regen, ghost s: State, ghost n: nat) returns (ok: bool)
    requires Underway(d, r, s, n) && r.ca == ca && r.issue == issue
    requires Entry(d, REGEN) == Sub(r.was, [PKI])
    modifies d
    ensures old(d.clock) <= d.clock && (!ok ==> Faulty(d.faults, old(d.clock), d.clock) || r.New().Err?)
    ensures Entry(d, PKI) == old(Entry(d, PKI))
    ensures ok ==> r.New() == Ok(Entry(d, REGEN))
    ensures Underway(d, r, s, n) && old(d.log) <= d.log && d.mark == old(d.mark)
  {
    hide Sub, Graft, View, Underway, Assets, Deleted, Crt, Key;
    var toDelete := [Crt(Authority(ca)), Key(Authority(ca))];
    var leaves := DependentLeaves(ca);
    PkiDependents(ca);
    for j := 0 to |leaves|
      invariant toDelete == [Crt(Authority(ca)), Key(Authority(ca))] + PairPaths(leaves[..j])
    {
      assert leaves[..j + 1][..j] == leaves[..j];
      toDelete := toDelete + [Crt(Issued(leaves[j])), Key(Issued(leaves[j]))];
    }
    assert leaves[..|leaves|] == leaves;
    ok := DeleteInStage(d, toDelete, r, s, n);
    if ok {
      ok := CreatePKIAssets(d, issue, r, s, n);
    }
  }

  lemma PkiDependents(ca: CA)
    ensures forall leaf | leaf in DependentLeaves(ca) :: IsPki(leaf)
  {}

  /** The dependent kubeconfigs, one by one. */
  method WriteKubeconfigs(d: Disk, ca: CA, issue: Issuance, ghost r: Regen, ghost s: State, ghost n: nat) returns (ok: bool)
    requires Underway(d, r, s, n) && NewIn(r, Kube(d.l, d.Now())) && r.ca == ca && r.issue == issue
    requires Entry(d, REGEN) == map[]
    modifies d
    ensures old(d.clock) <= d.clock && (!ok ==> Faulty(d.faults, old(d.clock), d.clock))
    ensures ok ==> NewIn(r, Kube(d.l, d.Now())) && Entry(d, REGEN) == map[]
    ensures ok ==> forall name | name in DependentKubeconfigs(ca) :: Entry(d, name) == r.Conf(name)
    ensures Underway(d, r, s, n) && old(d.log) <= d.log && d.mark == old(d.mark)
  {
    hide Sub, Graft, View, Underway, NewPki, DependentKubeconfigs, NewIn;
    var names := DependentKubeconfigs(ca);
    EntryNames(ca);
    NewInSame(r);
    ok := true;
    var i := 0;
    while ok && i < |names|
      invariant 0 <= i <= |names| && Underway(d, r, s, n) && old(d.log) <= d.log && d.mark == old(d.mark)
      invariant NewIn(r, Kube(d.l, d.Now())) && Entry(d, REGEN) == map[]
      invariant ok ==> forall j | 0 <= j < i :: Entry(d, names[j]) == r.Conf(names[j])
      invariant old(d.clock) <= d.clock && (!ok ==> Faulty(d.faults, old(d.clock), d.clock))
      decreases |names| - i, ok
    {
      ok := WriteKubeconfigAtomic(d, names[i], issue, r, s, n);
      PkiHere(d);
      i := i + 1;
    }
  }

  /** The PKI directory is the new one and every dependent kubeconfig still the old. */
  ghost predicate Halfway(r: Regen, k: Tree) {
    NewIn(r, k) && Untorn(r, k) && forall name | name in DependentKubeconfigs(r.ca) :: Sub(k, [name]) == Sub(r.was, [name])
  }

  /** Up to the swap no kubeconfig has been written. */
  lemma SwappedIsHalfway(r: Regen, k: Tree, k': Tree)
    requires Untorn(r, k) && Sub(k, [PKI]) == Sub(r.was, [PKI]) && !NewIn(r, r.was)
    requires NewIn(r, k') && Untorn(r, k') && SameButPki(k, k')
    ensures Halfway(r, k')
  {
    hide Sub, DependentKubeconfigs, NewPki;
    EntryNames(r.ca);
    NewInSame(r);
  }

  /** A completed regeneration: the new PKI directory is live, every dependent
      kubeconfig is signed by the new CA, the displaced directory is gone. */
  ghost predicate Regenerated(r: Regen, k: Tree) {
    && Untorn(r, k) && NewIn(r, k) && Sub(k, [REGEN]) == map[]
    && forall name | name in DependentKubeconfigs(r.ca) :: Sub(k, [name]) == r.Conf(name)
  }

  /** Fills the copy in staging and swaps it in. */
  method PopulateAndSwap(d: Disk, ca: CA, issue: Issuance, ghost r: Regen, ghost s: State, ghost n: nat) returns (ok: bool)
    requires Underway(d, r, s, n) && r.ca == ca && r.issue == issue
    requires Entry(d, REGEN) == Entry(d, PKI) == Sub(r.was, [PKI])
    modifies d
    ensures old(d.clock) <= d.clock && (!ok ==> Faulty(d.faults, old(d.clock), d.clock) || r.New().Err?)
    ensures ok ==> NewIn(r, Kube(d.l, d.Now())) && (!NewIn(r, r.was) ==> Halfway(r, Kube(d.l, d.Now())))
    ensures Underway(d, r, s, n) && old(d.log) <= d.log && d.mark == old(d.mark)
  {
    hide Sub, Graft, View, NewPki, Assets, Untorn, Reconciled, WellFormed, Steps, DependentKubeconfigs, Can, NewIn, Halfway, SameButPki;
    ok := PopulateStage(d, ca, issue, r, s, n);
    if !ok { return; }
    ghost var k := Kube(d.l, d.Now());
    PkiHere(d);
    ok := SwapPki(d, r, s, n);
    if ok && !NewIn(r, r.was) {
      SwappedIsHalfway(r, k, Kube(d.l, d.Now()));
    }
  }

  /** After the swap: the displaced directory goes, the kubeconfigs come. */
  method FinishSwapped(d: Disk, ca: CA, issue: Issuance, ghost r: Regen, ghost s: State, ghost n: nat) returns (ok: bool)
    requires Underway(d, r, s, n) && NewIn(r, Kube(d.l, d.Now())) && r.ca == ca && r.issue == issue
    modifies d
    ensures old(d.clock) <= d.clock && (!ok ==> Faulty(d.faults, old(d.clock), d.clock))
    ensures ok ==> Regenerated(r, Kube(d.l, d.Now()))
    ensures Underway(d, r, s, n) && old(d.log) <= d.log && d.mark == old(d.mark)
  {
    hide Sub, Graft, View, NewPki, Untorn, Reconciled, WellFormed, Steps, DependentKubeconfigs, Can, NewIn;
    EntryNames(ca);
    ok := RemoveStage(d, REGEN, r, s, n);
    PkiHere(d);
    NewInSame(r);
    if ok {
      ok := WriteKubeconfigs(d, ca, issue, r, s, n);
    }
  }

  /** RegenerateCA. Whatever fails, and wherever the process dies, what is live is
      untorn: the old PKI directory or the whole new one, never a mixture. A successful
      one passes a moment with the new directory and the old kubeconfigs. */
  method RegenerateCA(d: Disk, ca: CA, issue: Issuance) returns (ok: bool)
    requires d.Valid() && d.mark.pc.Gated?
    modifies d
    ensures old(d.clock) <= d.clock
    ensures !ok ==> Faulty(d.faults, old(d.clock), d.clock) || NewPki(old(Entry(d, PKI)), ca, issue).Err?
    ensures d.Valid() && old(d.log) <= d.log && d.mark == old(d.mark)
    ensures Reconciled(old(d.State()), d.State())
    ensures forall i | |old(d.log)| <= i < |d.log| :: Untorn(Regen(old(Kube(d.l, d.Now())), ca, issue), Kube(d.l, d.log[i]))
    ensures Untorn(Regen(old(Kube(d.l, d.Now())), ca, issue), Kube(d.l, d.Now()))
    ensures ok ==> Regenerated(Regen(old(Kube(d.l, d.Now())), ca, issue), Kube(d.l, d.Now()))
    ensures ok && !NewIn(Regen(old(Kube(d.l, d.Now())), ca, issue), old(Kube(d.l, d.Now()))) ==>
              exists i | |old(d.log)| <= i < |d.log| :: Halfway(Regen(old(Kube(d.l, d.Now())), ca, issue), Kube(d.l, d.log[i]))
  {
    hide Sub, Graft, View, NewPki, Untorn, Reconciled, WellFormed, Steps, Can, NewIn, Halfway, Regenerated;
    ghost var r, s, n := Regen(Kube(d.l, d.Now()), ca, issue), d.State(), |d.log|;
    StartsUnderway(d, r);
    EntryNames(ca);
    PkiHere(d);
    ok := RemoveStage(d, REGEN, r, s, n);
    if !ok { return; }
    ok := CopyPKITree(d, r, s, n);
    if !ok { return; }
    var swapDone := PopulateAndSwap(d, ca, issue, r, s, n);
    if swapDone {
      ghost var w := |d.log| - 1;
      assert d.log[w] == d.Now() && n <= w;
      ok := FinishSwapped(d, ca, issue, r, s, n);
      assert !NewIn(r, r.was) ==> Halfway(r, Kube(d.l, d.log[w]));
    } else {
      ok := false;
      var _ := RemoveStage(d, REGEN, r, s, n);
    }
  }

  lemma NewInSame(r: Regen)
    ensures forall k: Tree, k': Tree | Sub(k', [PKI]) == Sub(k, [PKI]) :: NewIn(r, k') == NewIn(r, k)
    ensures forall k: Tree | NewIn(r, k) :: r.New().Ok?
  {
    hide Sub, NewPki;
  }

  lemma StartsUnderway(d: Disk, r: Regen)
    requires d.Valid() && d.mark.pc.Gated? && r.was == Kube(d.l, d.Now())
    ensures Underway(d, r, d.State(), |d.log|)
  {
    hide Sub, Backups, NewPki;
    var s := d.State();
    assert s.store.live == s.store.live[KUBERNETES := s.store.live[KUBERNETES]];
  }
}
