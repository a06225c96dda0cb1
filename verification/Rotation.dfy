/** Boot's rotateCertsIfStale and what it is made of: the expiry reports, the renewal
    of single leaves, the preflight on CAs, and what rotation does to trust chains. */
module Rotation {
  import opened Types
  import opened Trees
  import opened Protocol
  import opened Layouts
  import opened Effects
  import opened Disks
  import opened Moves
  import opened Pki
  import opened Regenerate

  // ---- what a regeneration does to certificates ----

  /** Where kubeadm's terms for a leaf are looked up. */
  function IssuePath(leaf: Leaf): Path {
    if IsPki(leaf) then Crt(Issued(leaf)) else [ConfName(leaf)]
  }

  lemma ConfNames(leaf: Leaf)
    requires !IsPki(leaf)
    ensures ConfName(leaf) != PKI && ConfName(leaf) != REGEN && ConfName(leaf) != CONF_STAGE
    ensures forall other | !IsPki(other) && other != leaf :: ConfName(other) != ConfName(leaf)
    ensures (leaf.SuperAdminConf? <==> ConfName(leaf) == "super-admin.conf") && ConfName(leaf) != "kubelet.conf"
  {
    assert |"kubelet.conf"| == 12;
    assert |PKI| == 3 && |REGEN| == 9 && |CONF_STAGE| == 17;
    assert |"admin.conf"| == 10 && |"super-admin.conf"| == 16 && |"controller-manager.conf"| == 23 && |"scheduler.conf"| == 14;
  }

  /** The CA and its dependents are new, and signed by the new key. */
  lemma RegeneratedCerts(r: Regen, k: Tree)
    requires Regenerated(r, k)
    ensures CaCert(k, r.ca) == Some(SelfSigned(r.issue(Crt(Authority(r.ca)))))
    ensures forall leaf | Cascades(r.ca, leaf) :: LeafCert(k, leaf) == Some(r.issue(IssuePath(leaf)).SignedBy(r.NewKey()))
  {
    hide Sub, NewPki, Untorn;
    NewPkiReplaces(Sub(r.was, [PKI]), r.ca, r.issue);
    forall leaf | Cascades(r.ca, leaf) ensures LeafCert(k, leaf) == Some(r.issue(IssuePath(leaf)).SignedBy(r.NewKey())) {
      CascadeIsSigner(r.ca, leaf);
      if !IsPki(leaf) {
        assert Sub(k, [ConfName(leaf)]) == r.Conf(ConfName(leaf));
      }
    }
  }

  /** What another CA signed, and super-admin.conf, is as before. */
  lemma RegenerationKeeps(r: Regen, k: Tree)
    requires Regenerated(r, k)
    ensures forall ca: CA | ca != r.ca && CaCert(r.was, ca).Some? :: CaCert(k, ca) == CaCert(r.was, ca)
    ensures forall leaf | !Cascades(r.ca, leaf) && LeafCert(r.was, leaf).Some? :: LeafCert(k, leaf) == LeafCert(r.was, leaf)
    ensures forall leaf | !Cascades(r.ca, leaf) && !IsPki(leaf) :: LeafCert(k, leaf) == LeafCert(r.was, leaf)
    ensures forall leaf | IsPki(leaf) :: Chains(k, leaf)
  {
    hide Sub, NewPki, DependentKubeconfigs, Crt, Key, Signer;
    var pki := Sub(r.was, [PKI]);
    forall ca: CA | ca != r.ca && CaCert(r.was, ca).Some? ensures CaCert(k, ca) == CaCert(r.was, ca) {
      NewPkiKeepsItem(pki, r.ca, r.issue, Authority(ca));
    }
    forall leaf | !Cascades(r.ca, leaf) && LeafCert(r.was, leaf).Some? && IsPki(leaf)
      ensures LeafCert(k, leaf) == LeafCert(r.was, leaf) {
      CascadeIsSigner(r.ca, leaf);
      NewPkiKeepsItem(pki, r.ca, r.issue, Issued(leaf));
    }
    forall leaf | !Cascades(r.ca, leaf) && !IsPki(leaf) ensures LeafCert(k, leaf) == LeafCert(r.was, leaf) {
      ConfNames(leaf);
      assert !Touchable(r, ConfName(leaf));
    }
    forall leaf | IsPki(leaf) ensures Chains(k, leaf) {
      assert Signed(r.New().value, leaf);
    }
  }

  // ---- renewing one leaf ----

  /** Only `leaf` may have changed. */
  ghost predicate OnlyLeaf(k: Tree, k': Tree, leaf: Leaf) {
    && (forall ca: CA :: CaCert(k', ca) == CaCert(k, ca) && Owned(Sub(k', [PKI]), ca) == Owned(Sub(k, [PKI]), ca))
    && (forall x: Leaf | x != leaf :: LeafCert(k', x) == LeafCert(k, x))
    && Sub(k', ["kubelet.conf"]) == Sub(k, ["kubelet.conf"])
  }

  /** Writing a leaf's certificate, key or kubeconfig touches no other certificate. */
  lemma LeafFile(k: Tree, leaf: Leaf, key: bool, t: Tree)
    requires key ==> IsPki(leaf)
    ensures var p := if key then [PKI] + Key(Issued(leaf)) else if IsPki(leaf) then [PKI] + Crt(Issued(leaf)) else [ConfName(leaf)];
            var k' := Graft(k, p, t);
            && OnlyLeaf(k, k', leaf) && (LeafCert(k, leaf).Some? ==> Guarded(k, k'))
            && (!key ==> LeafCert(k', leaf) == if IsPki(leaf) then CertAt(t, []) else ClientIn(t))
  {
    hide Sub, Graft, Crt, Key;
    if IsPki(leaf) {
      PkiLeafFile(k, leaf, if key then Key(Issued(leaf)) else Crt(Issued(leaf)), t);
    } else {
      ConfFile(k, leaf, t);
      ConfNames(leaf);
    }
  }

  lemma PkiLeafFile(k: Tree, leaf: Leaf, x: Path, t: Tree)
    requires IsPki(leaf) && (x == Crt(Issued(leaf)) || x == Key(Issued(leaf)))
    ensures var k' := Graft(k, [PKI] + x, t);
            && OnlyLeaf(k, k', leaf) && Guarded(k, k')
            && (x == Crt(Issued(leaf)) ==> LeafCert(k', leaf) == CertAt(t, []))
  {
    hide Sub, Graft, Crt, Key, HasCAs, NoSuperAdmin;
    var k' := Graft(k, [PKI] + x, t);
    var pki, pki' := Sub(k, [PKI]), Sub(k', [PKI]);
    InEntry(k, PKI, x, t);
    forall item | Filed(item) && item != Issued(leaf)
      ensures CertAt(pki', Crt(item)) == CertAt(pki, Crt(item)) && Sub(pki', Crt(item)) == Sub(pki, Crt(item))
      ensures KeyAt(pki', Key(item)) == KeyAt(pki, Key(item)) {
      FilesDiffer(Issued(leaf), item);
      FilesDiffer(item, Issued(leaf));
      InGraft(pki, x, t, Crt(item));
      InGraft(pki, x, t, Key(item));
      SubGraftApart(pki, x, t, Crt(item));
    }
    forall name | name != PKI ensures Sub(k', [name]) == Sub(k, [name]) {
      OtherEntry(k, PKI, x, t, name);
    }
    assert |PKI| == 3 && |"kubelet.conf"| == 12;
    forall y: Leaf | y != leaf ensures LeafCert(k', y) == LeafCert(k, y) {
      if !IsPki(y) { ConfNames(y); }
    }
    GuardCAs(k, k');
    GuardNames(k, k');
    if x == Crt(Issued(leaf)) {
      InGraft(pki, x, t, x);
      assert Under(x, x) && x[|x|..] == [];
    }
  }

  lemma GuardCAs(k: Tree, k': Tree)
    requires forall ca: CA :: Sub(Sub(k', [PKI]), Crt(Authority(ca))) == Sub(Sub(k, [PKI]), Crt(Authority(ca)))
    ensures HasCAs(k) == HasCAs(k')
  {
    hide Sub, Crt;
    forall ca: CA ensures Exists(k', [PKI] + Crt(Authority(ca))) == Exists(k, [PKI] + Crt(Authority(ca))) {
      SubOfSub(k, [PKI], Crt(Authority(ca)));
      SubOfSub(k', [PKI], Crt(Authority(ca)));
    }
  }

  lemma GuardNames(k: Tree, k': Tree)
    requires forall name | name != PKI :: Sub(k', [name]) == Sub(k, [name])
    ensures NoSuperAdmin(k) == NoSuperAdmin(k')
  {
    hide Sub;
    assert |PKI| == 3 && |"super-admin.conf"| == 16;
  }

  lemma ConfFile(k: Tree, leaf: Leaf, t: Tree)
    requires !IsPki(leaf)
    ensures var k' := Graft(k, [ConfName(leaf)], t);
            && OnlyLeaf(k, k', leaf) && HasCAs(k) == HasCAs(k') && LeafCert(k', leaf) == ClientIn(t)
            && (!leaf.SuperAdminConf? ==> NoSuperAdmin(k) == NoSuperAdmin(k'))
  {
    hide Sub, Graft, Crt, HasCAs;
    var n := ConfName(leaf);
    var k' := Graft(k, [n], t);
    ConfNames(leaf);
    assert [n] + [] == [n];
    SubGraftSame(k, [n], t);
    OtherEntry(k, n, [], t, PKI);
    GuardCAs(k, k');
    if !leaf.SuperAdminConf? {
      OtherEntry(k, n, [], t, "super-admin.conf");
    }
    OtherEntry(k, n, [], t, "kubelet.conf");
    forall y: Leaf | y != leaf ensures LeafCert(k', y) == LeafCert(k, y) {
      if !IsPki(y) { OtherEntry(k, n, [], t, ConfName(y)); }
    }
  }

  /** Time has passed and only certificate files may have changed. */
  ghost predicate Going(l: Layout, a: Moment, b: Moment) {
    b.mark == a.mark && Reconciled(View(l, a), View(l, b))
  }

  lemma GoingOn(l: Layout, a: Moment, b: Moment, c: Moment)
    requires Going(l, a, b) && Going(l, b, c)
    ensures Going(l, a, c)
  {
    hide StoreOf;
  }

  lemma Stays(l: Layout, m: Moment)
    ensures Going(l, m, m)
  {
    var s := View(l, m);
    assert s.store.live == s.store.live[KUBERNETES := s.store.live[KUBERNETES]];
  }

  /** Reading a file, or asking kubeadm to. */
  method Look(d: Disk) returns (ok: bool)
    requires d.Valid()
    modifies d
    ensures d.fs == old(d.fs) && Going(d.l, old(d.Now()), d.Now())
    ensures d.Now() == Ticked(old(d.Now())) && ok == d.faults(old(d.clock)).ok
    ensures d.Valid() && old(d.log) <= d.log
  {
    hide Can, Sub, View, Reconciled, Steps, WellFormed;
    TickCan(d.l, d.Now());
    TickedReconciles(d.l, d.Now());
    ok := d.Attempt();
  }

  /** One of the files of a leaf that is there. */
  method WriteLeafFile(d: Disk, leaf: Leaf, key: bool, t: Tree) returns (ok: bool)
    requires d.Valid() && d.mark.pc.Gated? && (key ==> IsPki(leaf)) && LeafCert(Kube(d.l, d.Now()), leaf).Some?
    modifies d
    ensures old(d.clock) <= d.clock && (!ok ==> Faulty(d.faults, old(d.clock), d.clock))
    ensures OnlyLeaf(old(Kube(d.l, d.Now())), Kube(d.l, d.Now()), leaf)
    ensures key ==> LeafCert(Kube(d.l, d.Now()), leaf) == old(LeafCert(Kube(d.l, d.Now()), leaf))
    ensures ok && !key ==> LeafCert(Kube(d.l, d.Now()), leaf) == if IsPki(leaf) then CertAt(t, []) else ClientIn(t)
    ensures Going(d.l, old(d.Now()), d.Now())
    ensures d.Valid() && old(d.log) <= d.log
  {
    hide Can, Sub, Graft, View, Reconciled, Steps, LeafCert, Crt, Key, OnlyLeaf, Guarded;
    ghost var m := d.Now();
    var x := if key then [PKI] + Key(Issued(leaf)) else if IsPki(leaf) then [PKI] + Crt(Issued(leaf)) else [ConfName(leaf)];
    forall u: Tree ensures Can(d.l, m, After(d.l, m, d.l.kubernetesDir + x, u)) {
      LeafFile(Kube(d.l, m), leaf, key, u);
      KubeCan(d.l, m, x, u);
    }
    NotInBackups(d.l, x);
    ok := d.Write(d.l.kubernetesDir + x, t);
    ghost var u := if ok then t else d.faults(m.clock).debris;
    KubeView(d.l, m, x, u);
    LeafFile(Kube(d.l, m), leaf, key, u);
    if key {
      KeyFileOnly(Kube(d.l, m), leaf, u);
    }
  }

  lemma KeyFileOnly(k: Tree, leaf: Leaf, t: Tree)
    requires IsPki(leaf)
    ensures LeafCert(Graft(k, [PKI] + Key(Issued(leaf)), t), leaf) == LeafCert(k, leaf)
  {
    hide Sub, Graft, Crt, Key;
    InEntry(k, PKI, Key(Issued(leaf)), t);
    FilesDiffer(Issued(leaf), Issued(leaf));
    InGraft(Sub(k, [PKI]), Key(Issued(leaf)), t, Crt(Issued(leaf)));
  }

  /** The kubeconfig with another client certificate. */
  function Recertified(file: Tree, c: Cert): Data
    requires IsKubeconfig(file)
  {
    file[[]].data.(user := Embedded(c))
  }

  lemma LeafIsKubeconfig(kube: Tree, leaf: Leaf)
    requires LeafCert(kube, leaf).Some? && !IsPki(leaf)
    ensures IsKubeconfig(Sub(kube, [ConfName(leaf)]))
  {
    hide Sub;
  }

  /** The leaf is there and its CA can sign. */
  ghost predicate Renewable(k: Tree, leaf: Leaf) {
    LeafCert(k, leaf).Some? && Owned(Sub(k, [PKI]), Signer(leaf))
  }

  /** kubeadm's `RenewUsingLocalCA`: re-sign what is there under the CA on disk. */
  method RenewUsingLocalCA(d: Disk, leaf: Leaf, issue: Issuance) returns (ok: bool)
    requires d.Valid() && d.mark.pc.Gated?
    modifies d
    ensures old(d.clock) <= d.clock
    ensures !ok ==> Faulty(d.faults, old(d.clock), d.clock) || !Renewable(old(Kube(d.l, d.Now())), leaf)
    ensures OnlyLeaf(old(Kube(d.l, d.Now())), Kube(d.l, d.Now()), leaf)
    ensures ok ==> CaCert(Kube(d.l, d.Now()), Signer(leaf)).Some?
                   && LeafCert(Kube(d.l, d.Now()), leaf)
                      == Some(issue(IssuePath(leaf)).SignedBy(CaCert(Kube(d.l, d.Now()), Signer(leaf)).value.key))
    ensures Going(d.l, old(d.Now()), d.Now())
    ensures d.Valid() && old(d.log) <= d.log
  {
    hide Can, Sub, Graft, View, Reconciled, Steps, LeafCert, Crt, Key, Signer, Going;
    ghost var m := d.Now();
    ok := Look(d);
    SameMark(d.l, m, d.Now());
    if !ok { return; }
    var kube := Sub(d.fs, d.l.kubernetesDir);
    if LeafCert(kube, leaf).None? || !Owned(Sub(kube, [PKI]), Signer(leaf)) { return false; }
    var c := issue(IssuePath(leaf)).SignedBy(CaCert(kube, Signer(leaf)).value.key);
    if IsPki(leaf) {
      ghost var m1 := d.Now();
      ok := WriteLeafFile(d, leaf, true, Trees.Leaf(KeyFile(c.key)));
      SameMark(d.l, m1, d.Now());
      GoingOn(d.l, m, m1, d.Now());
      if !ok { return; }
    }
    ghost var m2 := d.Now();
    if !IsPki(leaf) { LeafIsKubeconfig(kube, leaf); }
    ok := WriteLeafFile(d, leaf, false, Trees.Leaf(if IsPki(leaf) then CertFile(c) else Recertified(Sub(kube, [ConfName(leaf)]), c)));
    GoingOn(d.l, m, m2, d.Now());
  }

  /** Nothing but certificates of the list has changed. */
  ghost predicate OnlyLeaves(k0: Tree, k: Tree, leaves: seq<Leaf>) {
    && (forall ca: CA :: CaCert(k, ca) == CaCert(k0, ca))
    && (forall leaf | leaf !in leaves :: LeafCert(k, leaf) == LeafCert(k0, leaf))
    && Sub(k, ["kubelet.conf"]) == Sub(k0, ["kubelet.conf"])
  }

  /** The first `i` of the list are re-signed and the rest can be. */
  ghost predicate SignedUpTo(k0: Tree, k: Tree, leaves: seq<Leaf>, i: nat, issue: Issuance)
    requires i <= |leaves|
  {
    && (forall leaf | leaf in leaves[..i] :: SignedAnew(k, leaf, issue))
    && (forall leaf | Renewable(k0, leaf) :: Renewable(k, leaf))
  }

  lemma OneMoreSigned(k0: Tree, k1: Tree, k2: Tree, leaves: seq<Leaf>, i: nat, issue: Issuance, ok: bool)
    requires i < |leaves| && OnlyLeaves(k0, k1, leaves) && SignedUpTo(k0, k1, leaves, i, issue) && OnlyLeaf(k1, k2, leaves[i])
    requires ok ==> SignedAnew(k2, leaves[i], issue)
    ensures OnlyLeaves(k0, k2, leaves) && (ok ==> SignedUpTo(k0, k2, leaves, i + 1, issue))
  {
    hide Sub, LeafCert, CaCert, SignedAnew, Renewable;
    if ok {
      SignedIsThere(k2, leaves[i], issue);
      StillRenewable(k1, k2, leaves[i]);
      forall leaf | leaf in leaves[..i + 1] ensures SignedAnew(k2, leaf, issue) {
        StillSigned(k1, k2, leaves[i], leaf, issue);
        assert leaf in leaves[..i] || leaf == leaves[i];
      }
    }
  }

  lemma SignedIsThere(k: Tree, leaf: Leaf, issue: Issuance)
    requires SignedAnew(k, leaf, issue)
    ensures LeafCert(k, leaf).Some?
  {}

  /** RenewLeaves: each leaf of the list is re-signed; no other certificate changes. */
  method RenewLeaves(d: Disk, leaves: seq<Leaf>, issue: Issuance) returns (ok: bool)
    requires d.Valid() && d.mark.pc.Gated?
    modifies d
    ensures old(d.clock) <= d.clock
    ensures !ok ==> Faulty(d.faults, old(d.clock), d.clock) || exists leaf | leaf in leaves :: !Renewable(old(Kube(d.l, d.Now())), leaf)
    ensures OnlyLeaves(old(Kube(d.l, d.Now())), Kube(d.l, d.Now()), leaves)
    ensures ok ==> forall leaf | leaf in leaves :: SignedAnew(Kube(d.l, d.Now()), leaf, issue)
    ensures Going(d.l, old(d.Now()), d.Now())
    ensures d.Valid() && old(d.log) <= d.log
  {
    hide Can, Sub, Graft, View, Reconciled, Steps, LeafCert, CaCert, Crt, Key, Signer, Going, SignedAnew, Renewable, OnlyLeaf, OnlyLeaves;
    ghost var m, k0 := d.Now(), Kube(d.l, d.Now());
    NoneRenewed(k0, leaves, issue);
    ok := Look(d);
    SameMark(d.l, m, d.Now());
    var i := 0;
    while ok && i < |leaves|
      invariant 0 <= i <= |leaves| && d.Valid() && old(d.log) <= d.log && Going(d.l, m, d.Now()) && d.mark == m.mark
      invariant OnlyLeaves(k0, Kube(d.l, d.Now()), leaves)
      invariant ok ==> SignedUpTo(k0, Kube(d.l, d.Now()), leaves, i, issue)
      invariant old(d.clock) <= d.clock
      invariant !ok ==> Faulty(d.faults, old(d.clock), d.clock) || exists leaf | leaf in leaves :: !Renewable(k0, leaf)
      decreases |leaves| - i, ok
    {
      ghost var m1 := d.Now();
      assert leaves[i] in leaves;
      ok := RenewUsingLocalCA(d, leaves[i], issue);
      SameMark(d.l, m1, d.Now());
      GoingOn(d.l, m, m1, d.Now());
      if ok {
        JustSigned(Kube(d.l, d.Now()), leaves[i], issue);
      }
      OneMoreSigned(k0, Kube(d.l, m1), Kube(d.l, d.Now()), leaves, i, issue, ok);
      i := i + 1;
    }
    assert leaves[..|leaves|] == leaves;
  }

  lemma NoneRenewed(k: Tree, leaves: seq<Leaf>, issue: Issuance)
    ensures OnlyLeaves(k, k, leaves) && SignedUpTo(k, k, leaves, 0, issue)
  {}

  lemma SameMark(l: Layout, a: Moment, b: Moment)
    requires Going(l, a, b)
    ensures b.mark == a.mark
  {}

  /** Just re-signed by the CA on disk. */
  ghost predicate SignedAnew(k: Tree, leaf: Leaf, issue: Issuance) {
    CaCert(k, Signer(leaf)).Some? && LeafCert(k, leaf) == Some(issue(IssuePath(leaf)).SignedBy(CaCert(k, Signer(leaf)).value.key))
  }

  lemma JustSigned(k: Tree, leaf: Leaf, issue: Issuance)
    requires CaCert(k, Signer(leaf)).Some?
    requires LeafCert(k, leaf) == Some(issue(IssuePath(leaf)).SignedBy(CaCert(k, Signer(leaf)).value.key))
    ensures SignedAnew(k, leaf, issue)
  {}

  lemma StillRenewable(k: Tree, k': Tree, made: Leaf)
    requires OnlyLeaf(k, k', made) && LeafCert(k', made).Some?
    ensures forall leaf | Renewable(k, leaf) :: Renewable(k', leaf)
  {
    hide Sub, LeafCert, CaCert, Signer, Owned;
  }

  lemma StillSigned(k: Tree, k': Tree, made: Leaf, leaf: Leaf, issue: Issuance)
    requires OnlyLeaf(k, k', made)
    ensures SignedAnew(k, leaf, issue) && leaf != made ==> SignedAnew(k', leaf, issue)
  {
    hide Sub, LeafCert, CaCert, Signer;
  }

  // ---- the expiry reports ----

  /** CheckCAs: the certificate of every CA, `None` when its file is not there. */
  method CheckCAs(d: Disk) returns (r: Result<map<CA, Option<Cert>>>)
    requires d.Valid()
    modifies d
    ensures old(d.clock) <= d.clock
    ensures r.Err? ==> Faulty(d.faults, old(d.clock), d.clock) || exists ca: CA :: CaCert(Kube(d.l, d.Now()), ca).None?
    ensures d.fs == old(d.fs) && Going(d.l, old(d.Now()), d.Now())
    ensures r.Ok? ==> forall ca: CA :: ca in r.value && r.value[ca] == CaCert(Kube(d.l, d.Now()), ca)
    ensures d.Valid() && old(d.log) <= d.log
  {
    hide Can, Sub, View, Reconciled, Steps, WellFormed, Crt, CertAt, Exists, Going;
    ghost var m := d.Now();
    Stays(d.l, m);
    var out: map<CA, Option<Cert>> := map[];
    for i := 0 to |ALL_CAS|
      invariant d.Valid() && old(d.log) <= d.log && d.fs == old(d.fs) && Going(d.l, m, d.Now())
      invariant forall ca | ca in ALL_CAS[..i] :: ca in out && out[ca] == CaCert(Kube(d.l, d.Now()), ca)
      invariant old(d.clock) <= d.clock
    {
      var ca := ALL_CAS[i];
      assert ALL_CAS[..i + 1] == ALL_CAS[..i] + [ca];
      ghost var m1 := d.Now();
      var ok := Look(d);
      GoingOn(d.l, m, m1, d.Now());
      if !ok { return Err; }
      var pki := Sub(d.fs, d.l.PkiDir());
      SubOfSub(d.fs, d.l.kubernetesDir, [PKI]);
      AbsentFile(pki, Crt(Authority(ca)));
      if !Exists(pki, Crt(Authority(ca))) {
        out := out[ca := None];
      } else if CertAt(pki, Crt(Authority(ca))).Some? {
        out := out[ca := CertAt(pki, Crt(Authority(ca)))];
      } else {
        assert CaCert(Kube(d.l, d.Now()), ca).None?;
        return Err;
      }
    }
    forall ca: CA ensures ca in ALL_CAS[..|ALL_CAS|] { EveryCA(ca); }
    r := Ok(out);
  }

  lemma AbsentFile(t: Tree, p: Path)
    ensures !Exists(t, p) ==> CertAt(t, p) == None && ClientIn(Sub(t, p)) == None
  {
    hide Sub;
    InSub(t, p, []);
    assert p + [] == p;
  }

  /** Whether the file of a leaf is there. */
  predicate LeafExists(kube: Tree, leaf: Leaf) {
    if IsPki(leaf) then Exists(Sub(kube, [PKI]), Crt(Issued(leaf))) else Exists(kube, [ConfName(leaf)])
  }

  /** The file is there and holds no certificate. */
  predicate Garbled(kube: Tree, leaf: Leaf) {
    LeafExists(kube, leaf) && LeafCert(kube, leaf).None?
  }

  /** CheckLeaves: the certificate of every leaf, `None` when its file is not there. */
  method CheckLeaves(d: Disk) returns (r: Result<map<Leaf, Option<Cert>>>)
    requires d.Valid()
    modifies d
    ensures old(d.clock) <= d.clock
    ensures r.Err? ==> Faulty(d.faults, old(d.clock), d.clock) || exists leaf: Leaf :: Garbled(Kube(d.l, d.Now()), leaf)
    ensures d.fs == old(d.fs) && Going(d.l, old(d.Now()), d.Now())
    ensures r.Ok? ==> forall leaf: Leaf :: leaf in r.value && r.value[leaf] == LeafCert(Kube(d.l, d.Now()), leaf)
    ensures d.Valid() && old(d.log) <= d.log
  {
    hide Can, Sub, View, Reconciled, Steps, WellFormed, LeafCert, LeafExists, Going;
    ghost var m := d.Now();
    var ok := Look(d);
    if !ok { return Err; }
    var out: map<Leaf, Option<Cert>> := map[];
    for i := 0 to |ALL_LEAVES|
      invariant d.Valid() && old(d.log) <= d.log && d.fs == old(d.fs) && Going(d.l, m, d.Now())
      invariant forall leaf | leaf in ALL_LEAVES[..i] :: leaf in out && out[leaf] == LeafCert(Kube(d.l, d.Now()), leaf)
      invariant old(d.clock) <= d.clock
    {
      var leaf := ALL_LEAVES[i];
      assert ALL_LEAVES[..i + 1] == ALL_LEAVES[..i] + [leaf];
      ghost var m1 := d.Now();
      ok := Look(d);
      GoingOn(d.l, m, m1, d.Now());
      if !ok { return Err; }
      var kube := Sub(d.fs, d.l.kubernetesDir);
      AbsentLeaf(kube, leaf);
      if !LeafExists(kube, leaf) {
        out := out[leaf := None];
      } else if LeafCert(kube, leaf).Some? {
        out := out[leaf := LeafCert(kube, leaf)];
      } else {
        assert Garbled(Kube(d.l, d.Now()), leaf);
        return Err;
      }
    }
    forall leaf: Leaf ensures leaf in ALL_LEAVES[..|ALL_LEAVES|] { CascadeIsSigner(ClusterCA, leaf); }
    r := Ok(out);
  }

  lemma AbsentLeaf(kube: Tree, leaf: Leaf)
    ensures !LeafExists(kube, leaf) ==> LeafCert(kube, leaf) == None
  {
    hide Sub;
    if IsPki(leaf) {
      AbsentFile(Sub(kube, [PKI]), Crt(Issued(leaf)));
    }
  }

  // ---- an intact tree stays intact ----

  /** All CAs can sign, the PKI leaves are signed, kubelet.conf and such other
      kubeconfigs as are there parse. */
  ghost predicate Intact(k: Tree) {
    && (forall ca: CA :: Owned(Sub(k, [PKI]), ca))
    && (forall leaf | IsPki(leaf) :: Signed(Sub(k, [PKI]), leaf))
    && (forall leaf: Leaf :: !Garbled(k, leaf)) && IsKubeconfig(Sub(k, ["kubelet.conf"]))
  }

  lemma RegenerationStaysIntact(r: Regen, k: Tree)
    requires Intact(r.was) && Regenerated(r, k)
    ensures Intact(k)
  {
    hide Sub, NewPki, Crt, Key, Signer, LeafExists;
    var pki := Sub(r.was, [PKI]);
    RegeneratedCerts(r, k);
    NewPkiReplaces(pki, r.ca, r.issue);
    forall ca: CA ensures Owned(Sub(k, [PKI]), ca) {
      assert Owned(pki, ca);
      if ca != r.ca {
        NewPkiKeepsItem(pki, r.ca, r.issue, Authority(ca));
      }
    }
    forall leaf | !IsPki(leaf) ensures !Garbled(k, leaf) {
      ConfStaysParsed(r, k, leaf);
    }
    forall leaf | IsPki(leaf) ensures !Garbled(k, leaf) {
      assert Signed(r.New().value, leaf);
    }
    KubeletConfStays(r, k);
  }

  lemma KubeletConfStays(r: Regen, k: Tree)
    requires Regenerated(r, k) && IsKubeconfig(Sub(r.was, ["kubelet.conf"]))
    ensures IsKubeconfig(Sub(k, ["kubelet.conf"]))
  {
    hide Sub, NewPki;
    assert |PKI| == 3 && |REGEN| == 9 && |CONF_STAGE| == 17 && |"kubelet.conf"| == 12;
    if r.ca == ClusterCA {
      assert "kubelet.conf" == DependentKubeconfigs(ClusterCA)[3];
      assert Sub(k, ["kubelet.conf"]) == r.Conf("kubelet.conf");
    } else {
      assert !Touchable(r, "kubelet.conf");
    }
  }

  lemma ConfStaysParsed(r: Regen, k: Tree, leaf: Leaf)
    requires Regenerated(r, k) && !IsPki(leaf) && !Garbled(r.was, leaf)
    ensures !Garbled(k, leaf)
  {
    hide Sub, NewPki, DependentKubeconfigs;
    ConfNames(leaf);
    if ConfName(leaf) in DependentKubeconfigs(r.ca) {
      assert Sub(k, [ConfName(leaf)]) == r.Conf(ConfName(leaf));
    } else {
      assert !Touchable(r, ConfName(leaf));
    }
  }

  /** So no CA of it is beyond regeneration. */
  lemma IntactCanRegenerate(k: Tree, ca: CA, issue: Issuance)
    requires Intact(k)
    ensures NewPki(Sub(k, [PKI]), ca, issue).Ok? && CaCert(k, ca).Some?
  {
    hide Sub, Crt, Key, Signer, NewPki, LeafExists;
    assert Owned(Sub(k, [PKI]), ca);
    HealthyRegenerates(Sub(k, [PKI]), ca, issue);
  }

  // ---- rotateCertsIfStale ----

  predicate Due(k: Tree, ca: CA, now: int) {
    CaCert(k, ca).Some? && NeedsRotation(CaCert(k, ca).value, now)
  }

  function NewCa(issues: CA -> Issuance, ca: CA): Cert {
    SelfSigned(issues(ca)(Crt(Authority(ca))))
  }

  /** A leaf once the CAs in `done` have been seen to. */
  function AfterCAs(k: Tree, leaf: Leaf, done: set<CA>, now: int, issues: CA -> Issuance): Option<Cert> {
    var ca := Signer(leaf);
    if !leaf.SuperAdminConf? && ca in done && Due(k, ca, now) then Some(issues(ca)(IssuePath(leaf)).SignedBy(NewCa(issues, ca).key))
    else LeafCert(k, leaf)
  }

  /** The first pass, with the CAs in `done` behind it. */
  ghost predicate CAPhase(k0: Tree, k: Tree, done: set<CA>, now: int, issues: CA -> Issuance) {
    && (forall ca: CA | ca in done :: CaCert(k0, ca).Some?)
    && (forall ca: CA | CaCert(k0, ca).Some? ::
          CaCert(k, ca) == if ca in done && Due(k0, ca, now) then Some(NewCa(issues, ca)) else CaCert(k0, ca))
    && (forall leaf | LeafCert(k0, leaf).Some? :: LeafCert(k, leaf) == AfterCAs(k0, leaf, done, now, issues))
    && (forall leaf | LeafCert(k0, leaf).None? && LeafCert(k, leaf).Some? :: Chains(k, leaf) && !leaf.SuperAdminConf?)
  }

  lemma CAPhaseStep(k0: Tree, k: Tree, k': Tree, done: set<CA>, ca: CA, now: int, issues: CA -> Issuance)
    requires CAPhase(k0, k, done, now, issues) && ca !in done && Due(k0, ca, now)
    requires Regenerated(Regen(k, ca, issues(ca)), k')
    ensures CAPhase(k0, k', done + {ca}, now, issues)
  {
    hide Sub, Regenerated, CaCert, LeafCert, IssuePath, Crt, NeedsRotation, Cascades;
    var r := Regen(k, ca, issues(ca));
    RegeneratedCerts(r, k');
    RegenerationKeeps(r, k');
    forall leaf: Leaf ensures Cascades(ca, leaf) <==> Signer(leaf) == ca && !leaf.SuperAdminConf? {
      CascadeIsSigner(ca, leaf);
    }
    forall leaf | LeafCert(k0, leaf).None? && LeafCert(k', leaf).Some? ensures Chains(k', leaf) && !leaf.SuperAdminConf? {
      NewlyChained(k, k', ca, leaf, issues(ca));
    }
  }

  /** A leaf that appears during the pass is signed by the CA on disk. */
  lemma NewlyChained(k: Tree, k': Tree, ca: CA, leaf: Leaf, issue: Issuance)
    requires Regenerated(Regen(k, ca, issue), k')
    requires LeafCert(k, leaf).Some? ==> Chains(k, leaf) && !leaf.SuperAdminConf?
    requires LeafCert(k', leaf).Some?
    ensures Chains(k', leaf) && !leaf.SuperAdminConf?
  {
    hide Sub, Regenerated, CaCert, LeafCert, IssuePath, Crt;
    var r := Regen(k, ca, issue);
    RegeneratedCerts(r, k');
    RegenerationKeeps(r, k');
    CascadeIsSigner(ca, leaf);
    CascadeIsSigner(ClusterCA, leaf);
  }

  lemma CAPhaseSkip(k0: Tree, k: Tree, done: set<CA>, ca: CA, now: int, issues: CA -> Issuance)
    requires CAPhase(k0, k, done, now, issues) && CaCert(k0, ca).Some? && !Due(k0, ca, now)
    ensures CAPhase(k0, k, done + {ca}, now, issues)
  {
    hide Sub, CaCert, LeafCert, IssuePath, Crt, NeedsRotation;
  }

  lemma CAPhaseStarts(k: Tree, now: int, issues: CA -> Issuance)
    ensures CAPhase(k, k, {}, now, issues)
  {
    hide Sub, CaCert, LeafCert, IssuePath, Crt, NeedsRotation;
  }

  /** What a rotation that returns no error has done to a kubernetes tree. */
  ghost predicate Rotated(k0: Tree, k: Tree, now: int, issues: CA -> Issuance, renewal: Issuance) {
    && (forall ca: CA :: CaCert(k0, ca).Some?
          && CaCert(k, ca) == if Due(k0, ca, now) then Some(NewCa(issues, ca)) else CaCert(k0, ca))
    && (forall leaf | LeafCert(k0, leaf).Some? :: LeafCert(k, leaf) == AfterBoth(k0, k, leaf, now, issues, renewal))
    && (forall leaf | LeafCert(k0, leaf).None? && LeafCert(k, leaf).Some? ::
          Chains(k, leaf) && !leaf.SuperAdminConf?
          && (NeedsRotation(LeafCert(k, leaf).value, now) ==> SignedAnew(k, leaf, renewal)))
  }

  /** A leaf once both passes are behind it: renewed if what the first pass left is
      due, under the CA then on disk. */
  function AfterBoth(k0: Tree, k: Tree, leaf: Leaf, now: int, issues: CA -> Issuance, renewal: Issuance): Option<Cert> {
    var mid := AfterCAs(k0, leaf, SetOf(ALL_CAS), now, issues);
    if mid.Some? && NeedsRotation(mid.value, now) && CaCert(k, Signer(leaf)).Some?
    then Some(renewal(IssuePath(leaf)).SignedBy(CaCert(k, Signer(leaf)).value.key))
    else mid
  }

  /** Nothing in the tree is due. */
  ghost predicate AllFresh(k: Tree, now: int) {
    (forall ca: CA :: !Due(k, ca, now)) && forall leaf | LeafCert(k, leaf).Some? :: !NeedsRotation(LeafCert(k, leaf).value, now)
  }

  /** The CA pass. */
  method RotateCAs(d: Disk, now: int, issues: CA -> Issuance) returns (ok: bool)
    requires d.Valid() && d.mark.pc.Gated?
    modifies d
    ensures old(d.clock) <= d.clock
    ensures Intact(old(Kube(d.l, d.Now()))) ==>
              if ok then Intact(Kube(d.l, d.Now())) else Faulty(d.faults, old(d.clock), d.clock)
    ensures ok ==> CAPhase(old(Kube(d.l, d.Now())), Kube(d.l, d.Now()), SetOf(ALL_CAS), now, issues)
    ensures AllFresh(old(Kube(d.l, d.Now())), now) ==> d.fs == old(d.fs)
    ensures Going(d.l, old(d.Now()), d.Now())
    ensures d.Valid() && old(d.log) <= d.log
  {
    hide Can, Sub, Graft, View, Reconciled, Steps, LeafCert, CaCert, NeedsRotation, Going, CAPhase, AllFresh, Regenerated, Untorn, Intact, NewPki;
    ghost var m, k0 := d.Now(), Kube(d.l, d.Now());
    var report := CheckCAs(d);
    SameMark(d.l, m, d.Now());
    IntactHasCAs(k0);
    if report.Err? { return false; }
    CAPhaseStarts(k0, now, issues);
    ghost var done: set<CA> := {};
    assert done == SetOf(ALL_CAS[..0]);
    ok := true;
    var i := 0;
    while ok && i < |ALL_CAS|
      invariant 0 <= i <= |ALL_CAS| && d.Valid() && old(d.log) <= d.log && Going(d.l, m, d.Now()) && d.mark == m.mark
      invariant done == SetOf(ALL_CAS[..i])
      invariant ok ==> CAPhase(k0, Kube(d.l, d.Now()), done, now, issues)
      invariant AllFresh(k0, now) ==> d.fs == old(d.fs)
      invariant old(d.clock) <= d.clock
      invariant Intact(k0) ==> if ok then Intact(Kube(d.l, d.Now())) else Faulty(d.faults, old(d.clock), d.clock)
      decreases |ALL_CAS| - i, ok
    {
      var ca := ALL_CAS[i];
      CAsDistinct(i);
      assert ALL_CAS[..i + 1] == ALL_CAS[..i] + [ca];
      if report.value[ca].None? { return false; }
      if !NeedsRotation(report.value[ca].value, now) {
        CAPhaseSkip(k0, Kube(d.l, d.Now()), done, ca, now, issues);
      } else {
        ghost var m1 := d.Now();
        NotFresh(k0, ca, now);
        if Intact(Kube(d.l, m1)) {
          IntactCanRegenerate(Kube(d.l, m1), ca, issues(ca));
        }
        ok := RegenerateCA(d, ca, issues(ca));
        Regenerating(d.l, m, m1, d.Now());
        if ok {
          CAPhaseStep(k0, Kube(d.l, m1), Kube(d.l, d.Now()), done, ca, now, issues);
          if Intact(Kube(d.l, m1)) {
            RegenerationStaysIntact(Regen(Kube(d.l, m1), ca, issues(ca)), Kube(d.l, d.Now()));
          }
        }
      }
      done := done + {ca};
      i := i + 1;
    }
    assert ALL_CAS[..|ALL_CAS|] == ALL_CAS;
  }

  lemma IntactHasCAs(k: Tree)
    ensures Intact(k) ==> forall ca: CA :: CaCert(k, ca).Some?
  {
    hide Sub, Crt, Key, Signer, LeafExists, IsPki;
    if Intact(k) {
      forall ca: CA ensures CaCert(k, ca).Some? {
        assert Owned(Sub(k, [PKI]), ca);
      }
    }
  }

  lemma CAsDistinct(i: nat)
    requires i < |ALL_CAS|
    ensures ALL_CAS[i] !in ALL_CAS[..i]
  {
    assert ALL_CAS[0] == ClusterCA && ALL_CAS[1] == EtcdCA && ALL_CAS[2] == FrontProxyCA;
  }

  lemma NotFresh(k: Tree, ca: CA, now: int)
    requires Due(k, ca, now)
    ensures !AllFresh(k, now)
  {}

  lemma Regenerating(l: Layout, m: Moment, a: Moment, b: Moment)
    requires Going(l, m, a) && b.mark == a.mark && Reconciled(View(l, a), View(l, b))
    ensures Going(l, m, b)
  {
    hide StoreOf;
    GoingOn(l, m, a, b);
  }

  /** rotateCertsIfStale. When it returns no error exactly the stale CAs have been
      replaced, with everything they signed but super-admin.conf, and exactly the
      leaves still stale then have been renewed. With nothing due it writes nothing. */
  method RotateCertsIfStale(d: Disk, now: int, issues: CA -> Issuance, renewal: Issuance) returns (ok: bool)
    requires d.Valid() && d.mark.pc.Gated?
    modifies d
    ensures Intact(old(Kube(d.l, d.Now()))) && ok ==> IsKubeconfig(Sub(Kube(d.l, d.Now()), ["kubelet.conf"]))
    ensures old(d.clock) <= d.clock
    ensures Intact(old(Kube(d.l, d.Now()))) && !ok ==> Faulty(d.faults, old(d.clock), d.clock)
    ensures ok ==> Rotated(old(Kube(d.l, d.Now())), Kube(d.l, d.Now()), now, issues, renewal)
    ensures AllFresh(old(Kube(d.l, d.Now())), now) ==> d.fs == old(d.fs)
    ensures Going(d.l, old(d.Now()), d.Now())
    ensures d.Valid() && old(d.log) <= d.log
  {
    hide Can, Sub, Graft, View, Reconciled, Steps, LeafCert, CaCert, NeedsRotation, Going, CAPhase, AllFresh, Rotated, SignedAnew, Signer, Intact, Renewable, Garbled;
    ghost var m, k0 := d.Now(), Kube(d.l, d.Now());
    ok := RotateCAs(d, now, issues);
    SameMark(d.l, m, d.Now());
    if !ok { return; }
    ghost var m1, k1 := d.Now(), Kube(d.l, d.Now());
    var report := CheckLeaves(d);
    SameMark(d.l, m1, d.Now());
    GoingOn(d.l, m, m1, d.Now());
    IntactRenews(k1);
    if report.Err? { return false; }
    var stale := [];
    for i := 0 to |ALL_LEAVES|
      invariant forall leaf :: leaf in stale <==>
                  leaf in ALL_LEAVES[..i] && LeafCert(k1, leaf).Some? && NeedsRotation(LeafCert(k1, leaf).value, now)
    {
      var leaf := ALL_LEAVES[i];
      assert ALL_LEAVES[..i + 1] == ALL_LEAVES[..i] + [leaf];
      if report.value[leaf].Some? && NeedsRotation(report.value[leaf].value, now) {
        stale := stale + [leaf];
      }
    }
    forall leaf ensures leaf in ALL_LEAVES[..|ALL_LEAVES|] { CascadeIsSigner(ClusterCA, leaf); }
    if |stale| == 0 {
      NothingStale(k0, k1, now, issues, renewal);
      return;
    }
    assert stale[0] in stale;
    StaleNotFresh(k1, stale[0], now);
    ghost var m2 := d.Now();
    ok := RenewLeaves(d, stale, renewal);
    GoingOn(d.l, m, m2, d.Now());
    if ok {
      BothPasses(k0, k1, Kube(d.l, d.Now()), stale, now, issues, renewal);
    }
  }

  lemma IntactRenews(k: Tree)
    ensures Intact(k) ==> forall leaf: Leaf :: !Garbled(k, leaf) && (LeafCert(k, leaf).Some? ==> Renewable(k, leaf))
    ensures Intact(k) ==> IsKubeconfig(Sub(k, ["kubelet.conf"]))
  {
    hide Sub, Crt, Key, Signer, LeafExists, IsPki, LeafCert;
  }

  lemma StaleNotFresh(k: Tree, leaf: Leaf, now: int)
    requires LeafCert(k, leaf).Some? && NeedsRotation(LeafCert(k, leaf).value, now)
    ensures !AllFresh(k, now)
  {}

  lemma NothingStale(k0: Tree, k: Tree, now: int, issues: CA -> Issuance, renewal: Issuance)
    requires CAPhase(k0, k, SetOf(ALL_CAS), now, issues)
    requires forall leaf | LeafCert(k, leaf).Some? :: !NeedsRotation(LeafCert(k, leaf).value, now)
    ensures Rotated(k0, k, now, issues, renewal)
  {
    hide LeafCert, CaCert, NeedsRotation, IssuePath, Crt, Signer;
    forall ca: CA ensures ca in ALL_CAS { EveryCA(ca); }
  }

  lemma BothPasses(k0: Tree, k1: Tree, k: Tree, stale: seq<Leaf>, now: int, issues: CA -> Issuance, renewal: Issuance)
    requires CAPhase(k0, k1, SetOf(ALL_CAS), now, issues)
    requires forall leaf :: leaf in stale <==> LeafCert(k1, leaf).Some? && NeedsRotation(LeafCert(k1, leaf).value, now)
    requires forall ca: CA :: CaCert(k, ca) == CaCert(k1, ca)
    requires forall leaf | leaf !in stale :: LeafCert(k, leaf) == LeafCert(k1, leaf)
    requires forall leaf | leaf in stale :: SignedAnew(k, leaf, renewal)
    ensures Rotated(k0, k, now, issues, renewal)
  {
    hide LeafCert, CaCert, NeedsRotation, IssuePath, Crt, Signer;
    forall ca: CA ensures ca in ALL_CAS { EveryCA(ca); }
    forall leaf | LeafCert(k0, leaf).Some? ensures LeafCert(k, leaf) == AfterBoth(k0, k, leaf, now, issues, renewal) {
      if leaf in stale {
        assert SignedAnew(k, leaf, renewal);
      }
    }
  }

  // ---- what a completed rotation means ----

  /** Trust after a rotation that returned no error: a leaf other than
      super-admin.conf is signed by its CA exactly when it was before, or the CA was
      stale, or the leaf itself was. */
  lemma ChainsAfterRotation(k0: Tree, k: Tree, leaf: Leaf, now: int, issues: CA -> Issuance, renewal: Issuance)
    requires Rotated(k0, k, now, issues, renewal) && LeafCert(k0, leaf).Some? && !leaf.SuperAdminConf?
    ensures Chains(k, leaf) <==>
            Chains(k0, leaf) || Due(k0, Signer(leaf), now) || NeedsRotation(LeafCert(k0, leaf).value, now)
  {
    hide Sub, NeedsRotation, IssuePath, Crt;
    EveryCA(Signer(leaf));
  }

  /** So rotation preserves trust: if every leaf that is there, super-admin.conf
      aside, chains to its CA on entry, every one does on return. */
  lemma RotationPreservesTrust(k0: Tree, k: Tree, now: int, issues: CA -> Issuance, renewal: Issuance)
    requires Rotated(k0, k, now, issues, renewal)
    requires forall leaf: Leaf | !leaf.SuperAdminConf? && LeafCert(k0, leaf).Some? :: Chains(k0, leaf)
    ensures forall leaf: Leaf | !leaf.SuperAdminConf? && LeafCert(k, leaf).Some? :: Chains(k, leaf)
  {
    hide Rotated, Chains, LeafCert, Due, NeedsRotation, Signer;
    forall leaf: Leaf | !leaf.SuperAdminConf? && LeafCert(k, leaf).Some? ensures Chains(k, leaf) {
      if LeafCert(k0, leaf).Some? {
        ChainsAfterRotation(k0, k, leaf, now, issues, renewal);
      } else {
        AppearedChains(k0, k, leaf, now, issues, renewal);
      }
    }
  }

  lemma AppearedChains(k0: Tree, k: Tree, leaf: Leaf, now: int, issues: CA -> Issuance, renewal: Issuance)
    requires Rotated(k0, k, now, issues, renewal) && LeafCert(k0, leaf).None? && LeafCert(k, leaf).Some?
    ensures Chains(k, leaf) && !leaf.SuperAdminConf?
  {}

  /** A leaf outside the replaced CAs' dependents that was not stale is unchanged. */
  lemma HealthyLeafUntouched(k0: Tree, k: Tree, leaf: Leaf, now: int, issues: CA -> Issuance, renewal: Issuance)
    requires Rotated(k0, k, now, issues, renewal) && LeafCert(k0, leaf).Some?
    requires leaf.SuperAdminConf? || !Due(k0, Signer(leaf), now)
    requires !NeedsRotation(LeafCert(k0, leaf).value, now)
    ensures LeafCert(k, leaf) == LeafCert(k0, leaf)
  {
    hide Sub, NeedsRotation, IssuePath, Crt;
  }

  /** Certificates are issued for at least seven months of thirty days. */
  ghost predicate LongEnough(issue: Issuance, now: int) {
    forall p :: 0 <= now - issue(p).notBefore <= HOUR / 12 && issue(p).notAfter - now >= 210 * 24 * HOUR
  }

  /** With such periods nothing is due after a rotation, so a second one at the same
      instant writes nothing (`RotateCertsIfStale`). */
  lemma RotationSettles(k0: Tree, k: Tree, now: int, issues: CA -> Issuance, renewal: Issuance)
    requires Rotated(k0, k, now, issues, renewal)
    requires LongEnough(renewal, now) && forall ca: CA :: LongEnough(issues(ca), now)
    ensures AllFresh(k, now)
  {
    hide Sub, IssuePath, Crt, NeedsRotation;
    forall ca: CA ensures !Due(k, ca, now) {
      FreshNotDue(issues(ca), Crt(Authority(ca)), NewCa(issues, ca).key, now);
    }
    forall leaf | LeafCert(k, leaf).Some? ensures !NeedsRotation(LeafCert(k, leaf).value, now) {
      FreshNotDue(issues(Signer(leaf)), IssuePath(leaf), NewCa(issues, Signer(leaf)).key, now);
      FreshNotDue(renewal, IssuePath(leaf), CaCert(k, Signer(leaf)).value.key, now);
    }
  }

  lemma FreshNotDue(issue: Issuance, p: Path, key: nat, now: int)
    requires LongEnough(issue, now)
    ensures !NeedsRotation(issue(p).SignedBy(key), now)
  {
    FreshIsDue(issue(p).SignedBy(key), now, issue(p).notAfter - now, now - issue(p).notBefore);
  }

  /** A death between the PKI swap and the rename of a kubeconfig is not healed by
      the next boot: the kubeconfig keeps the old CA's signature, and rotation, which
      looks only at dates, leaves it until the kubeconfig or the new CA is due. */
  lemma InterruptedRegenerationStays(r: Regen, k0: Tree, k: Tree, leaf: Leaf, now: int, issues: CA -> Issuance, renewal: Issuance)
    requires r.ca == ClusterCA && !IsPki(leaf) && !leaf.SuperAdminConf?
    requires Untorn(r, k0) && NewIn(r, k0) && Sub(k0, [ConfName(leaf)]) == Sub(r.was, [ConfName(leaf)])
    requires LeafCert(r.was, leaf).Some? && LeafCert(r.was, leaf).value.issuer != r.NewKey()
    requires Rotated(k0, k, now, issues, renewal)
    ensures !Chains(k0, leaf)
    ensures Chains(k, leaf) <==> Due(k0, ClusterCA, now) || NeedsRotation(LeafCert(k0, leaf).value, now)
  {
    hide Sub, NeedsRotation, IssuePath, Crt, Rotated, Untorn, NewPki;
    NewPkiReplaces(Sub(r.was, [PKI]), r.ca, r.issue);
    ChainsAfterRotation(k0, k, leaf, now, issues, renewal);
  }

  // ---- rotation after rotation ----

  /** One rotation that returned no error: its instant and its terms. */
  datatype Pass = Pass(now: int, issues: CA -> Issuance, renewal: Issuance)

  /** From each tree to the next. */
  ghost predicate Passes(ks: seq<Tree>, ps: seq<Pass>) {
    |ks| == |ps| + 1 && forall i | 0 <= i < |ps| :: Rotated(ks[i], ks[i + 1], ps[i].now, ps[i].issues, ps[i].renewal)
  }

  /** The leaf or the CA that should have signed it is due. */
  predicate Stale(k: Tree, leaf: Leaf, now: int) {
    Due(k, Signer(leaf), now) || (LeafCert(k, leaf).Some? && NeedsRotation(LeafCert(k, leaf).value, now))
  }

  /** Until then neither certificate changes. */
  lemma {:induction false} NotStaleYet(ks: seq<Tree>, ps: seq<Pass>, leaf: Leaf, n: nat)
    requires Passes(ks, ps) && n <= |ps| && LeafCert(ks[0], leaf).Some?
    requires forall i | 0 <= i < n :: !Stale(ks[0], leaf, ps[i].now)
    ensures LeafCert(ks[n], leaf) == LeafCert(ks[0], leaf) && CaCert(ks[n], Signer(leaf)) == CaCert(ks[0], Signer(leaf))
  {
    hide Sub, NeedsRotation, Signer, CaCert, LeafCert, Rotated;
    if n > 0 {
      NotStaleYet(ks, ps, leaf, n - 1);
      var p := ps[n - 1];
      assert Rotated(ks[n - 1], ks[n - 1 + 1], p.now, p.issues, p.renewal) && !Stale(ks[0], leaf, p.now);
      FreshPairUntouched(ks[n - 1], ks[n], leaf, p);
    }
  }

  lemma FreshPairUntouched(k0: Tree, k: Tree, leaf: Leaf, p: Pass)
    requires Rotated(k0, k, p.now, p.issues, p.renewal) && LeafCert(k0, leaf).Some? && !Stale(k0, leaf, p.now)
    ensures LeafCert(k, leaf) == LeafCert(k0, leaf) && CaCert(k, Signer(leaf)) == CaCert(k0, Signer(leaf))
  {
    hide Sub, NeedsRotation, IssuePath, Crt, Signer;
  }

  /** A leaf that does not chain is healed by the first rotation that finds it or its
      CA due, by no other, and for good. */
  lemma {:induction false} HealedWhenStale(ks: seq<Tree>, ps: seq<Pass>, leaf: Leaf, n: nat)
    requires Passes(ks, ps) && n <= |ps| && !leaf.SuperAdminConf? && LeafCert(ks[0], leaf).Some? && !Chains(ks[0], leaf)
    ensures Chains(ks[n], leaf) <==> exists i | 0 <= i < n :: Stale(ks[0], leaf, ps[i].now)
  {
    hide Sub, NeedsRotation, Signer, CaCert, LeafCert, Rotated, Stale, Chains;
    if n > 0 {
      HealedWhenStale(ks, ps, leaf, n - 1);
      var p := ps[n - 1];
      assert Rotated(ks[n - 1], ks[n - 1 + 1], p.now, p.issues, p.renewal);
      if exists i | 0 <= i < n - 1 :: Stale(ks[0], leaf, ps[i].now) {
        ChainsIsThere(ks[n - 1], leaf);
        ChainsAfterRotation(ks[n - 1], ks[n], leaf, p.now, p.issues, p.renewal);
      } else {
        NotStaleYet(ks, ps, leaf, n - 1);
        SameStale(ks[0], ks[n - 1], leaf, p.now);
        ChainsAfterRotation(ks[n - 1], ks[n], leaf, p.now, p.issues, p.renewal);
        StaleIs(ks[n - 1], leaf, p.now);
      }
    }
  }

  lemma ChainsIsThere(k: Tree, leaf: Leaf)
    ensures Chains(k, leaf) ==> LeafCert(k, leaf).Some?
  {}

  lemma SameStale(k: Tree, k': Tree, leaf: Leaf, now: int)
    requires LeafCert(k', leaf) == LeafCert(k, leaf) && CaCert(k', Signer(leaf)) == CaCert(k, Signer(leaf))
    ensures Stale(k', leaf, now) == Stale(k, leaf, now)
  {
    hide Sub, NeedsRotation, Signer, CaCert, LeafCert;
  }

  lemma StaleIs(k: Tree, leaf: Leaf, now: int)
    requires LeafCert(k, leaf).Some?
    ensures Stale(k, leaf, now) <==> Due(k, Signer(leaf), now) || NeedsRotation(LeafCert(k, leaf).value, now)
  {
    hide Sub, NeedsRotation, Signer, CaCert, LeafCert;
  }

  /** And the interrupted regeneration comes about. Every successful one passes such a
      moment (`RegenerateCA`); and from there, however many boots rotate, at whatever
      instants and on whatever terms, a kubeconfig of the old CA is trusted again
      exactly once some rotation has come at a date on which that kubeconfig, or the
      new CA's certificate, was due. */
  lemma HealedExactlyWhenDue(r: Regen, ks: seq<Tree>, ps: seq<Pass>, leaf: Leaf)
    requires r.ca == ClusterCA && !IsPki(leaf) && !leaf.SuperAdminConf?
    requires Passes(ks, ps) && Halfway(r, ks[0])
    requires LeafCert(r.was, leaf).Some? && LeafCert(r.was, leaf).value.issuer != r.NewKey()
    ensures CaCert(ks[0], ClusterCA) == Some(SelfSigned(r.issue(Crt(Authority(ClusterCA)))))
    ensures LeafCert(ks[0], leaf) == LeafCert(r.was, leaf) && Signer(leaf) == ClusterCA
    ensures Chains(ks[|ps|], leaf) <==> exists i | 0 <= i < |ps| :: Stale(ks[0], leaf, ps[i].now)
  {
    hide Sub, NeedsRotation, Rotated, Untorn, NewPki, Stale;
    NewPkiReplaces(Sub(r.was, [PKI]), r.ca, r.issue);
    ConfIsDependent(leaf);
    HealedWhenStale(ks, ps, leaf, |ps|);
  }

  lemma ConfIsDependent(leaf: Leaf)
    requires !IsPki(leaf) && !leaf.SuperAdminConf?
    ensures ConfName(leaf) in DependentKubeconfigs(ClusterCA)
  {
    var ns := DependentKubeconfigs(ClusterCA);
    assert forall i | 0 <= i < |ns| :: ns[i] in ns;
  }

  /** From every tree a regeneration can succeed on there is one. */
  lemma HalfwayIsThere(r: Regen)
    requires r.New().Ok?
    ensures Halfway(r, Graft(r.was, [PKI], r.New().value))
  {
    hide Sub, Graft, NewPki;
    var k := Graft(r.was, [PKI], r.New().value);
    EntryNames(r.ca);
    SubGraftSame(r.was, [PKI], r.New().value);
    forall name | name != PKI ensures Sub(k, [name]) == Sub(r.was, [name]) {
      OtherEntry(r.was, PKI, [], r.New().value, name);
      assert [PKI] + [] == [PKI];
    }
  }

  // ---- the CA gate ----

  /** CAExistPreflighter, on the calls its loop makes. */
  method CAExistPreflight(d: Disk) returns (ok: bool)
    requires d.Valid()
    modifies d
    ensures d.Now() == old(d.Now()).(clock := d.clock) && old(d.clock) <= d.clock
    ensures ok ==> HasCAs(Kube(d.l, d.Now()))
    ensures HasCAs(Kube(d.l, d.Now())) && (forall i | old(d.clock) <= i < d.clock :: d.faults(i).ok) ==> ok
    ensures d.Valid() && old(d.log) <= d.log
  {
    hide Can, Sub, View, Reconciled, Steps, WellFormed, Crt, Exists, Going;
    for i := 0 to |ALL_CAS|
      invariant d.Valid() && old(d.log) <= d.log && d.Now() == old(d.Now()).(clock := d.clock)
      invariant forall ca | ca in ALL_CAS[..i] :: Exists(Kube(d.l, d.Now()), [PKI] + Crt(Authority(ca)))
      invariant old(d.clock) <= d.clock
    {
      assert ALL_CAS[..i + 1] == ALL_CAS[..i] + [ALL_CAS[i]];
      ok := Look(d);
      if !ok || !Exists(Sub(d.fs, d.l.kubernetesDir), [PKI] + Crt(Authority(ALL_CAS[i]))) { return false; }
    }
    forall ca: CA ensures ca in ALL_CAS[..|ALL_CAS|] { EveryCA(ca); }
    ok := true;
  }
}
