/** internal/certs as values: which certificates there are, where they live, when
    they are due, and what kubeadm's issuing calls make of a PKI directory. Paths
    are relative to the kubernetes directory or, for `Base`, to its PKI directory. */
module Pki {
  import opened Types
  import opened Trees

  // ---- kinds ----

  datatype CA = ClusterCA | EtcdCA | FrontProxyCA

  datatype Leaf =
    | APIServer
    | APIServerKubeletClient
    | APIServerEtcdClient
    | FrontProxyClient
    | EtcdServer
    | EtcdPeer
    | EtcdHealthcheckClient
    | AdminConf
    | SuperAdminConf
    | ControllerManagerConf
    | SchedulerConf

  const ALL_CAS: seq<CA> := [ClusterCA, EtcdCA, FrontProxyCA]

  const ALL_LEAVES: seq<Leaf> := [
    APIServer, APIServerKubeletClient, APIServerEtcdClient, FrontProxyClient, EtcdServer, EtcdPeer,
    EtcdHealthcheckClient, AdminConf, SuperAdminConf, ControllerManagerConf, SchedulerConf
  ]

  /** The leaves that are files in the PKI directory; the others are kubeconfigs. */
  const PKI_LEAVES: seq<Leaf> := ALL_LEAVES[..7]

  predicate IsPki(leaf: Leaf) {
    !(leaf.AdminConf? || leaf.SuperAdminConf? || leaf.ControllerManagerConf? || leaf.SchedulerConf?)
  }

  function DependentLeaves(ca: CA): seq<Leaf> {
    match ca
    case ClusterCA => [APIServer, APIServerKubeletClient]
    case EtcdCA => [EtcdServer, EtcdPeer, EtcdHealthcheckClient, APIServerEtcdClient]
    case FrontProxyCA => [FrontProxyClient]
  }

  function DependentKubeconfigs(ca: CA): seq<string> {
    if ca == ClusterCA then ["admin.conf", "controller-manager.conf", "scheduler.conf", "kubelet.conf"] else []
  }

  /** The CA that signs a leaf. */
  function Signer(leaf: Leaf): CA {
    match leaf
    case FrontProxyClient => FrontProxyCA
    case APIServerEtcdClient => EtcdCA
    case EtcdServer => EtcdCA
    case EtcdPeer => EtcdCA
    case EtcdHealthcheckClient => EtcdCA
    case _ => ClusterCA
  }

  function ConfName(leaf: Leaf): string
    requires !IsPki(leaf)
  {
    match leaf
    case AdminConf => "admin.conf"
    case SuperAdminConf => "super-admin.conf"
    case ControllerManagerConf => "controller-manager.conf"
    case SchedulerConf => "scheduler.conf"
  }

  /** Regenerating a CA re-issues `leaf`. */
  predicate Cascades(ca: CA, leaf: Leaf) {
    leaf in DependentLeaves(ca) || (!IsPki(leaf) && ConfName(leaf) in DependentKubeconfigs(ca))
  }

  /** The two dependency lists together cover every leaf but super-admin.conf, each
      under the one CA that signs it. */
  lemma CascadeIsSigner(ca: CA, leaf: Leaf)
    ensures leaf in ALL_LEAVES && (IsPki(leaf) <==> leaf in PKI_LEAVES)
    ensures Cascades(ca, leaf) <==> Signer(leaf) == ca && !leaf.SuperAdminConf?
  {
    assert leaf in ALL_LEAVES && (IsPki(leaf) <==> leaf in PKI_LEAVES) by {
      assert ALL_LEAVES[0] == APIServer && ALL_LEAVES[1] == APIServerKubeletClient && ALL_LEAVES[2] == APIServerEtcdClient;
      assert ALL_LEAVES[3] == FrontProxyClient && ALL_LEAVES[4] == EtcdServer && ALL_LEAVES[5] == EtcdPeer;
      assert ALL_LEAVES[6] == EtcdHealthcheckClient && ALL_LEAVES[7] == AdminConf && ALL_LEAVES[8] == SuperAdminConf;
      assert ALL_LEAVES[9] == ControllerManagerConf && ALL_LEAVES[10] == SchedulerConf;
      forall i | 0 <= i < 7 ensures PKI_LEAVES[i] == ALL_LEAVES[i] {}
    }
    assert |"super-admin.conf"| == 16;
    if leaf.AdminConf? { assert "admin.conf" == DependentKubeconfigs(ClusterCA)[0]; }
    if leaf.ControllerManagerConf? { assert "controller-manager.conf" == DependentKubeconfigs(ClusterCA)[1]; }
    if leaf.SchedulerConf? { assert "scheduler.conf" == DependentKubeconfigs(ClusterCA)[2]; }
    if leaf.SuperAdminConf? {
      assert forall i | 0 <= i < 4 :: |DependentKubeconfigs(ClusterCA)[i]| != 16;
    }
  }

  // ---- paths ----

  /** A certificate and its key in the PKI directory. */
  datatype Item = Authority(ca: CA) | Issued(leaf: Leaf)

  predicate Filed(item: Item) {
    item.Issued? ==> IsPki(item.leaf)
  }

  function Base(item: Item): (p: Path)
    requires Filed(item)
    ensures p != []
  {
    match item
    case Authority(ClusterCA) => ["ca"]
    case Authority(EtcdCA) => ["etcd", "ca"]
    case Authority(FrontProxyCA) => ["front-proxy-ca"]
    case Issued(APIServer) => ["apiserver"]
    case Issued(APIServerKubeletClient) => ["apiserver-kubelet-client"]
    case Issued(APIServerEtcdClient) => ["apiserver-etcd-client"]
    case Issued(FrontProxyClient) => ["front-proxy-client"]
    case Issued(EtcdServer) => ["etcd", "server"]
    case Issued(EtcdPeer) => ["etcd", "peer"]
    case Issued(EtcdHealthcheckClient) => ["etcd", "healthcheck-client"]
  }

  function Extended(p: Path, x: string): Path
    requires p != []
  {
    p[..|p| - 1] + [p[|p| - 1] + x]
  }

  function Crt(item: Item): Path
    requires Filed(item)
  {
    Extended(Base(item), ".crt")
  }

  function Key(item: Item): Path
    requires Filed(item)
  {
    Extended(Base(item), ".key")
  }

  /** Depth and length of the last component tell the items apart. */
  lemma BaseInjective(a: Item, b: Item)
    requires Filed(a) && Filed(b)
    requires |Base(a)| == |Base(b)| && |Base(a)[|Base(a)| - 1]| == |Base(b)[|Base(b)| - 1]|
    ensures a == b
  {}

  lemma FilesDiffer(a: Item, b: Item)
    requires Filed(a) && Filed(b)
    ensures Apart(Crt(a), Key(b)) && Apart(Key(b), Crt(a))
    ensures a != b ==> Apart(Crt(a), Crt(b)) && Apart(Key(a), Key(b))
  {
    var p, q := Base(a), Base(b);
    Shallow(a);
    Shallow(b);
    if |p| != |q| {
      assert Crt(a)[0] != Key(b)[0] && Crt(a)[0] != Crt(b)[0] && Key(a)[0] != Key(b)[0];
      ApartFirst(Crt(a), Key(b), 0);
      ApartFirst(Crt(a), Crt(b), 0);
      ApartFirst(Key(a), Key(b), 0);
    } else {
      var i := |p| - 1;
      LastDiffer(p[i], q[i], ".crt", ".key");
      ApartFirst(Crt(a), Key(b), i);
      if a != b {
        if |p[i]| == |q[i]| {
          BaseInjective(a, b);
        }
        LastLengths(p[i], q[i], ".crt");
        LastLengths(p[i], q[i], ".key");
        ApartFirst(Crt(a), Crt(b), i);
        ApartFirst(Key(a), Key(b), i);
      }
    }
  }

  lemma Shallow(a: Item)
    requires Filed(a)
    ensures |Base(a)| == 1 || (|Base(a)| == 2 && Base(a)[0] == "etcd" && Crt(a)[0] == "etcd" && Key(a)[0] == "etcd")
    ensures |Base(a)| == 1 ==> |Crt(a)[0]| > 4 && |Key(a)[0]| > 4
  {}

  lemma LastDiffer(a: string, b: string, x: string, y: string)
    requires |x| > 0 && |y| > 0 && x[|x| - 1] != y[|y| - 1]
    ensures a + x != b + y
  {
    assert (a + x)[|a + x| - 1] == x[|x| - 1] && (b + y)[|b + y| - 1] == y[|y| - 1];
  }

  lemma LastLengths(a: string, b: string, x: string)
    ensures |a| != |b| ==> a + x != b + x
  {
    assert |a + x| == |a| + |x| && |b + x| == |b| + |x|;
  }

  lemma ApartFirst(p: Path, q: Path, i: nat)
    requires i < |p| && i < |q| && p[i] != q[i]
    ensures Apart(p, q) && Apart(q, p)
  {
    UnderAt(p, q, i);
    UnderAt(q, p, i);
  }

  // ---- what is on disk ----

  function CertAt(t: Tree, p: Path): Option<Cert> {
    if p in t && t[p].File? && t[p].data.CertFile? then Some(t[p].data.cert) else None
  }

  function KeyAt(t: Tree, p: Path): Option<nat> {
    if p in t && t[p].File? && t[p].data.KeyFile? then Some(t[p].data.key) else None
  }

  /** kubeadm can sign with this CA. */
  predicate Owned(pki: Tree, ca: CA) {
    var c := CertAt(pki, Crt(Authority(ca)));
    c.Some? && KeyAt(pki, Key(Authority(ca))) == Some(c.value.key)
  }

  predicate Missing(pki: Tree, item: Item)
    requires Filed(item)
  {
    Crt(item) !in pki && Key(item) !in pki
  }

  predicate Present(pki: Tree, item: Item)
    requires Filed(item)
  {
    CertAt(pki, Crt(item)).Some? && KeyAt(pki, Key(item)).Some?
  }

  /** A PKI leaf is there and signed by the CA beside it. */
  predicate Signed(pki: Tree, leaf: Leaf)
    requires IsPki(leaf)
  {
    && Present(pki, Issued(leaf)) && CertAt(pki, Crt(Authority(Signer(leaf)))).Some?
    && CertAt(pki, Crt(Issued(leaf))).value.issuer == CertAt(pki, Crt(Authority(Signer(leaf)))).value.key
  }

  const PKI: string := "pki"
  const REGEN: string := "pki.regen"
  const CONF_STAGE: string := ".kubeconfig-stage"

  function CaCert(kube: Tree, ca: CA): Option<Cert> {
    CertAt(Sub(kube, [PKI]), Crt(Authority(ca)))
  }

  predicate IsKubeconfig(file: Tree) {
    [] in file && file[[]].File? && file[[]].data.Kubeconfig?
  }

  function ClientIn(file: Tree): Option<Cert> {
    if IsKubeconfig(file) && file[[]].data.user.Embedded? then Some(file[[]].data.user.client) else None
  }

  function LeafCert(kube: Tree, leaf: Leaf): Option<Cert> {
    if IsPki(leaf) then CertAt(Sub(kube, [PKI]), Crt(Issued(leaf))) else ClientIn(Sub(kube, [ConfName(leaf)]))
  }

  /** The leaf is there and its CA's key signed it. */
  predicate Chains(kube: Tree, leaf: Leaf) {
    && LeafCert(kube, leaf).Some? && CaCert(kube, Signer(leaf)).Some?
    && LeafCert(kube, leaf).value.issuer == CaCert(kube, Signer(leaf)).value.key
  }

  /** What `CAExistPreflighter` asks for. */
  predicate HasCAs(kube: Tree) {
    forall ca: CA :: Exists(kube, [PKI] + Crt(Authority(ca)))
  }

  predicate NoSuperAdmin(kube: Tree) {
    !Exists(kube, ["super-admin.conf"])
  }

  // ---- when a certificate is due ----

  const HOUR: int := 3600 * 1_000_000_000
  const MONTH: int := 30 * 24 * HOUR
  const SHORT_LIVED_CUTOFF: int := 5 * 365 * 24 * HOUR
  const MONTHS_SHORT: int := 7
  const MONTHS_LONG: int := 18

  predicate NeedsRotation(c: Cert, now: int) {
    if now > c.notAfter then true
    else if c.notAfter - c.notBefore < SHORT_LIVED_CUTOFF then c.notAfter - now < MONTHS_SHORT * MONTH
    else c.notAfter - now < MONTHS_LONG * MONTH
  }

  const MAX_DURATION: int := 0x7FFF_FFFF_FFFF_FFFF
  const MIN_DURATION: int := -0x8000_0000_0000_0000

  /** `time.Time.Sub`: a 64-bit count of nanoseconds that saturates. */
  function Duration(from: int, to: int): int {
    var x := to - from;
    if x > MAX_DURATION then MAX_DURATION else if x < MIN_DURATION then MIN_DURATION else x
  }

  /** The answer as the program computes it, on saturating durations. */
  predicate NeedsRotationSaturating(c: Cert, now: int) {
    if now > c.notAfter then true
    else if Duration(c.notBefore, c.notAfter) < SHORT_LIVED_CUTOFF then Duration(now, c.notAfter) < MONTHS_SHORT * MONTH
    else Duration(now, c.notAfter) < MONTHS_LONG * MONTH
  }

  lemma SaturationIsHarmless(c: Cert, now: int)
    ensures NeedsRotationSaturating(c, now) == NeedsRotation(c, now)
  {
    assert MONTHS_LONG * MONTH < SHORT_LIVED_CUTOFF < MAX_DURATION;
  }

  /** Once due, a certificate stays due until it is replaced. */
  lemma DueStaysDue(c: Cert, now: int, later: int)
    requires now <= later && NeedsRotation(c, now)
    ensures NeedsRotation(c, later)
  {}

  /** A certificate issued now with kubeadm's backdating is due at once exactly when
      it was issued for less than seven months of thirty days. */
  lemma FreshIsDue(c: Cert, now: int, period: int, backdate: int)
    requires 0 <= backdate <= HOUR / 12 && c.notBefore == now - backdate && c.notAfter == now + period
    ensures NeedsRotation(c, now) <==> period < 210 * 24 * HOUR
  {}

  // ---- issuing ----

  /** The key and validity a newly issued certificate gets and, for a kubeconfig, what
      the file says of the cluster. */
  datatype Terms = Terms(key: nat, notBefore: int, notAfter: int, cluster: int) {
    function SignedBy(issuer: nat): Cert { Cert(key, issuer, notBefore, notAfter) }
  }

  /** A kubeconfig as kubeadm writes it, its client certificate signed by `key`. */
  function NewConf(terms: Terms, key: nat): Data {
    Kubeconfig(terms.cluster, Embedded(terms.SignedBy(key)))
  }

  /** What kubeadm will issue for each file, by its path. */
  type Issuance = Path -> Terms

  function WithPair(pki: Tree, item: Item, c: Cert): Tree
    requires Filed(item)
  {
    pki[Crt(item) := File(CertFile(c))][Key(item) := File(KeyFile(c.key))]
  }

  /** Nothing that was there has changed. */
  predicate Extends(t: Tree, u: Tree) {
    t.Items <= u.Items
  }

  lemma ExtendsAt(t: Tree, u: Tree, p: Path)
    requires Extends(t, u) && p in t
    ensures p in u && u[p] == t[p]
  {
    assert (p, t[p]) in t.Items;
  }

  lemma PairExtends(pki: Tree, item: Item, c: Cert)
    requires Filed(item) && Missing(pki, item)
    ensures Extends(pki, WithPair(pki, item, c)) && Present(WithPair(pki, item, c), item)
    ensures CertAt(WithPair(pki, item, c), Crt(item)) == Some(c) && KeyAt(WithPair(pki, item, c), Key(item)) == Some(c.key)
    ensures forall p | p != Crt(item) && p != Key(item) :: SameAt(WithPair(pki, item, c), pki, p)
  {
    FilesDiffer(item, item);
    assert Crt(item) != Key(item) by {
      assert Under(Crt(item), Crt(item));
    }
    var u := WithPair(pki, item, c);
    forall x | x in pki.Items ensures x in u.Items {
      assert x.0 in pki && x.0 in u && u[x.0] == x.1;
    }
  }

  /** A CA: reused when both files are there, made when neither is. */
  function IssueCA(pki: Tree, ca: CA, issue: Issuance): (r: Result<Tree>)
    ensures r.Ok? ==> Extends(pki, r.value) && Present(r.value, Authority(ca))
    ensures r.Ok? && Missing(pki, Authority(ca)) ==>
              Owned(r.value, ca) && CertAt(r.value, Crt(Authority(ca))).value.key == issue(Crt(Authority(ca))).key
              && CertAt(r.value, Crt(Authority(ca))) == Some(SelfSigned(issue(Crt(Authority(ca)))))
    ensures r.Ok? ==> forall p | p !in pki && p in r.value :: p == Crt(Authority(ca)) || p == Key(Authority(ca))
  {
    var item := Authority(ca);
    if Present(pki, item) then Ok(pki)
    else if Missing(pki, item) then
      var c := SelfSigned(issue(Crt(item)));
      PairExtends(pki, item, c);
      assert forall p | p !in pki && p in WithPair(pki, item, c) :: p == Crt(item) || p == Key(item);
      Ok(WithPair(pki, item, c))
    else Err
  }

  function SelfSigned(terms: Terms): Cert {
    terms.SignedBy(terms.key)
  }

  /** A PKI leaf: reused when it is there and its CA signed it, made when it is not
      there; anything else is an error. */
  function IssueLeaf(pki: Tree, leaf: Leaf, issue: Issuance): (r: Result<Tree>)
    requires IsPki(leaf)
    ensures r.Ok? ==> Extends(pki, r.value) && Signed(r.value, leaf)
    ensures r.Ok? && Missing(pki, Issued(leaf)) ==>
              CertAt(pki, Crt(Authority(Signer(leaf)))).Some?
              && CertAt(r.value, Crt(Issued(leaf))) ==
                 Some(issue(Crt(Issued(leaf))).SignedBy(CertAt(pki, Crt(Authority(Signer(leaf)))).value.key))
    ensures r.Ok? ==> forall p | p !in pki && p in r.value :: p == Crt(Issued(leaf)) || p == Key(Issued(leaf))
  {
    var item, ca := Issued(leaf), Signer(leaf);
    if Signed(pki, leaf) then Ok(pki)
    else if Missing(pki, item) && Owned(pki, ca) then
      var c := issue(Crt(item)).SignedBy(CertAt(pki, Crt(Authority(ca))).value.key);
      PairExtends(pki, item, c);
      FilesDiffer(item, Authority(ca));
      FilesDiffer(Authority(ca), item);
      assert SameAt(WithPair(pki, item, c), pki, Crt(Authority(ca))) by {
        assert Under(Crt(item), Crt(item)) && Under(Key(item), Key(item));
      }
      assert forall p | p !in pki && p in WithPair(pki, item, c) :: p == Crt(item) || p == Key(item);
      Ok(WithPair(pki, item, c))
    else Err
  }

  /** `CreatePKIAssets`, the CAs: what was there stays, and every CA of the list is
      there afterwards. */
  function IssueCAs(pki: Tree, cas: seq<CA>, issue: Issuance): (r: Result<Tree>)
    ensures r.Ok? ==> Extends(pki, r.value) && forall ca | ca in cas :: Present(r.value, Authority(ca))
    decreases |cas|
  {
    if cas == [] then Ok(pki)
    else
      var first := IssueCA(pki, cas[0], issue);
      if first.Err? then Err
      else
        var r := IssueCAs(first.value, cas[1..], issue);
        assert r.Ok? ==> forall ca | ca in cas :: Present(r.value, Authority(ca)) by {
          if r.Ok? {
            PresentStays(first.value, r.value, Authority(cas[0]));
            assert forall ca | ca in cas :: ca == cas[0] || ca in cas[1..];
          }
        }
        r
  }

  /** The PKI leaves, under the CAs that are there. */
  function IssueLeaves(pki: Tree, leaves: seq<Leaf>, issue: Issuance): (r: Result<Tree>)
    requires forall leaf | leaf in leaves :: IsPki(leaf)
    ensures r.Ok? ==> Extends(pki, r.value) && forall leaf | leaf in leaves :: Signed(r.value, leaf)
    decreases |leaves|
  {
    if leaves == [] then Ok(pki)
    else
      var first := IssueLeaf(pki, leaves[0], issue);
      if first.Err? then Err
      else
        var r := IssueLeaves(first.value, leaves[1..], issue);
        assert r.Ok? ==> forall leaf | leaf in leaves :: Signed(r.value, leaf) by {
          if r.Ok? {
            SignedStays(first.value, r.value, leaves[0]);
            assert forall leaf | leaf in leaves :: leaf == leaves[0] || leaf in leaves[1..];
          }
        }
        r
  }

  lemma PresentStays(t: Tree, u: Tree, item: Item)
    requires Extends(t, u) && Filed(item)
    ensures CertAt(t, Crt(item)).Some? ==> CertAt(u, Crt(item)) == CertAt(t, Crt(item))
    ensures KeyAt(t, Key(item)).Some? ==> KeyAt(u, Key(item)) == KeyAt(t, Key(item))
    ensures Present(t, item) ==> Present(u, item)
  {
    if Crt(item) in t { ExtendsAt(t, u, Crt(item)); }
    if Key(item) in t { ExtendsAt(t, u, Key(item)); }
  }

  lemma SignedStays(t: Tree, u: Tree, leaf: Leaf)
    requires Extends(t, u) && IsPki(leaf) && Signed(t, leaf)
    ensures Signed(u, leaf)
  {
    PresentStays(t, u, Issued(leaf));
    PresentStays(t, u, Authority(Signer(leaf)));
  }

  /** `CreatePKIAssets`: kubeadm reuses what is there, issues what is missing, and
      fails on a leaf the CA beside it did not sign. */
  function Assets(pki: Tree, issue: Issuance): (r: Result<Tree>)
    ensures r.Ok? ==> Extends(pki, r.value)
    ensures r.Ok? ==> forall ca: CA :: Present(r.value, Authority(ca))
    ensures r.Ok? ==> forall leaf | IsPki(leaf) :: Signed(r.value, leaf)
  {
    PkiLeavesArePki();
    var cas := IssueCAs(pki, ALL_CAS, issue);
    if cas.Err? then Err
    else
      var r := IssueLeaves(cas.value, PKI_LEAVES, issue);
      assert r.Ok? ==> Extends(pki, r.value);
      assert r.Ok? ==> forall ca: CA :: Present(r.value, Authority(ca)) by {
        if r.Ok? {
          forall ca: CA ensures Present(r.value, Authority(ca)) {
            EveryCA(ca);
            PresentStays(cas.value, r.value, Authority(ca));
          }
        }
      }
      r
  }

  lemma EveryCA(ca: CA)
    ensures ca in ALL_CAS
  {
    assert ALL_CAS[0] == ClusterCA && ALL_CAS[1] == EtcdCA && ALL_CAS[2] == FrontProxyCA;
  }

  lemma PkiLeavesArePki()
    ensures forall leaf :: leaf in PKI_LEAVES <==> IsPki(leaf)
  {
    forall leaf ensures leaf in PKI_LEAVES <==> IsPki(leaf) {
      CascadeIsSigner(ClusterCA, leaf);
    }
  }

  // ---- what is issued is what was missing ----

  lemma OneMore(t: Tree, u: Tree, made: Item, item: Item)
    requires Extends(t, u) && Filed(made) && Filed(item) && made != item && Missing(t, item)
    requires forall p | p !in t && p in u :: p == Crt(made) || p == Key(made)
    ensures Missing(u, item)
  {
    FilesDiffer(made, item);
    FilesDiffer(item, made);
    assert Under(Crt(item), Crt(item)) && Under(Key(item), Key(item));
  }

  /** A CA that is missing is made; what is missing and not in the list stays missing. */
  lemma {:induction false} CAsIssued(pki: Tree, cas: seq<CA>, issue: Issuance, item: Item)
    requires IssueCAs(pki, cas, issue).Ok? && Filed(item) && Missing(pki, item)
    ensures var u := IssueCAs(pki, cas, issue).value;
            if item.Authority? && item.ca in cas then Owned(u, item.ca) && CertAt(u, Crt(item)) == Some(SelfSigned(issue(Crt(item))))
            else Missing(u, item)
    decreases |cas|
  {
    if cas != [] {
      var first := IssueCA(pki, cas[0], issue).value;
      var u := IssueCAs(first, cas[1..], issue).value;
      if item == Authority(cas[0]) {
        PresentStays(first, u, item);
      } else {
        OneMore(pki, first, Authority(cas[0]), item);
        CAsIssued(first, cas[1..], issue, item);
      }
    }
  }

  lemma {:induction false} LeavesIssued(pki: Tree, leaves: seq<Leaf>, issue: Issuance, leaf: Leaf)
    requires (forall x | x in leaves :: IsPki(x)) && IssueLeaves(pki, leaves, issue).Ok?
    requires IsPki(leaf) && leaf in leaves && Missing(pki, Issued(leaf))
    requires forall ca: CA :: Present(pki, Authority(ca))
    ensures var u := IssueLeaves(pki, leaves, issue).value;
            CertAt(u, Crt(Issued(leaf))) == Some(issue(Crt(Issued(leaf))).SignedBy(CertAt(u, Crt(Authority(Signer(leaf)))).value.key))
    decreases |leaves|
  {
    var first := IssueLeaf(pki, leaves[0], issue).value;
    var u := IssueLeaves(first, leaves[1..], issue).value;
    forall ca: CA ensures Present(first, Authority(ca)) && CertAt(u, Crt(Authority(ca))) == CertAt(pki, Crt(Authority(ca))) {
      PresentStays(pki, first, Authority(ca));
      PresentStays(first, u, Authority(ca));
    }
    if leaf == leaves[0] {
      PresentStays(first, u, Issued(leaf));
    } else {
      OneMore(pki, first, Issued(leaves[0]), Issued(leaf));
      LeavesIssued(first, leaves[1..], issue, leaf);
    }
  }

  // ---- regenerating one CA ----

  function PairPaths(leaves: seq<Leaf>): seq<Path>
    requires forall leaf | leaf in leaves :: IsPki(leaf)
  {
    if leaves == [] then []
    else
      var last := leaves[|leaves| - 1];
      PairPaths(leaves[..|leaves| - 1]) + [Crt(Issued(last)), Key(Issued(last))]
  }

  /** The files `RegenerateCA` deletes in staging. */
  function ToDelete(ca: CA): seq<Path> {
    [Crt(Authority(ca)), Key(Authority(ca))] + PairPaths(DependentLeaves(ca))
  }

  predicate Belongs(item: Item, ca: CA) {
    match item
    case Authority(c) => c == ca
    case Issued(leaf) => Signer(leaf) == ca
  }

  lemma {:induction false} PairPathsAre(leaves: seq<Leaf>, p: Path)
    requires forall leaf | leaf in leaves :: IsPki(leaf)
    ensures p in PairPaths(leaves) <==> exists leaf | leaf in leaves :: p == Crt(Issued(leaf)) || p == Key(Issued(leaf))
  {
    if leaves != [] {
      var rest, last := leaves[..|leaves| - 1], leaves[|leaves| - 1];
      PairPathsAre(rest, p);
      assert leaves == rest + [last];
      assert forall leaf :: leaf in leaves <==> leaf in rest || leaf == last;
    }
  }

  lemma ToDeleteIs(ca: CA, p: Path)
    ensures p in ToDelete(ca) <==> exists item | Filed(item) && Belongs(item, ca) :: p == Crt(item) || p == Key(item)
  {
    hide Crt, Key, PairPaths, DependentLeaves, Signer, IsPki;
    DependentLeavesAre(ca);
    PairPathsAre(DependentLeaves(ca), p);
    if p in ToDelete(ca) {
      if p == Crt(Authority(ca)) || p == Key(Authority(ca)) {
        assert Belongs(Authority(ca), ca);
      } else {
        var leaf :| leaf in DependentLeaves(ca) && (p == Crt(Issued(leaf)) || p == Key(Issued(leaf)));
        assert Filed(Issued(leaf)) && Belongs(Issued(leaf), ca);
      }
    }
    if item :| Filed(item) && Belongs(item, ca) && (p == Crt(item) || p == Key(item)) {
      if item.Issued? {
        assert item.leaf in DependentLeaves(ca);
      }
    }
  }

  lemma DependentLeavesAre(ca: CA)
    ensures forall leaf :: leaf in DependentLeaves(ca) <==> IsPki(leaf) && Signer(leaf) == ca
  {
    var ls := DependentLeaves(ca);
    forall leaf | IsPki(leaf) && Signer(leaf) == ca ensures leaf in ls {
      match ca
      case ClusterCA => assert ls[0] == APIServer && ls[1] == APIServerKubeletClient;
      case EtcdCA => assert ls[0] == EtcdServer && ls[1] == EtcdPeer && ls[2] == EtcdHealthcheckClient && ls[3] == APIServerEtcdClient;
      case FrontProxyCA => assert ls[0] == FrontProxyClient;
    }
  }

  function Deleted(t: Tree, ps: seq<Path>): Tree {
    if ps == [] then t else Graft(Deleted(t, ps[..|ps| - 1]), ps[|ps| - 1], map[])
  }

  lemma {:induction false} DeletedAt(t: Tree, ps: seq<Path>, q: Path)
    ensures q in Deleted(t, ps) <==> q in t && forall p | p in ps :: !Under(p, q)
    ensures q in Deleted(t, ps) ==> Deleted(t, ps)[q] == t[q]
  {
    if ps != [] {
      hide Graft;
      var rest, last := ps[..|ps| - 1], ps[|ps| - 1];
      DeletedAt(t, rest, q);
      InGraft(Deleted(t, rest), last, map[], q);
      assert forall p :: p in ps <==> p in rest || p == last;
    }
  }

  /** The staged tree once the CA and its leaves are deleted. */
  function Purged(pki: Tree, ca: CA): Tree {
    Deleted(pki, ToDelete(ca))
  }

  lemma PurgedAt(pki: Tree, ca: CA, item: Item)
    requires Filed(item)
    ensures Belongs(item, ca) ==> Missing(Purged(pki, ca), item)
    ensures !Belongs(item, ca) ==> SameAt(Purged(pki, ca), pki, Crt(item)) && SameAt(Purged(pki, ca), pki, Key(item))
  {
    hide Deleted, ToDelete;
    DeletedAt(pki, ToDelete(ca), Crt(item));
    DeletedAt(pki, ToDelete(ca), Key(item));
    ToDeleteIs(ca, Crt(item));
    ToDeleteIs(ca, Key(item));
    if Belongs(item, ca) {
      assert Under(Crt(item), Crt(item)) && Under(Key(item), Key(item));
    } else {
      forall p | p in ToDelete(ca) ensures !Under(p, Crt(item)) && !Under(p, Key(item)) {
        ToDeleteIs(ca, p);
        var x :| Filed(x) && Belongs(x, ca) && (p == Crt(x) || p == Key(x));
        FilesDiffer(x, item);
        FilesDiffer(item, x);
      }
    }
  }

  /** The PKI directory `RegenerateCA` swaps in. */
  function NewPki(pki: Tree, ca: CA, issue: Issuance): (r: Result<Tree>)
    ensures r.Ok? ==> forall c: CA :: Present(r.value, Authority(c))
    ensures r.Ok? ==> forall leaf | IsPki(leaf) :: Signed(r.value, leaf)
  {
    Assets(Purged(pki, ca), issue)
  }

  /** It has a new CA, and new leaves signed by it. */
  lemma NewPkiReplaces(pki: Tree, ca: CA, issue: Issuance)
    requires NewPki(pki, ca, issue).Ok?
    ensures var u := NewPki(pki, ca, issue).value;
            && CertAt(u, Crt(Authority(ca))) == Some(SelfSigned(issue(Crt(Authority(ca))))) && Owned(u, ca)
            && forall leaf | IsPki(leaf) && Signer(leaf) == ca ::
                 CertAt(u, Crt(Issued(leaf))) == Some(issue(Crt(Issued(leaf))).SignedBy(issue(Crt(Authority(ca))).key))
  {
    hide IssueCAs, IssueLeaves, IssueCA, IssueLeaf, Deleted, ToDelete;
    var t := Purged(pki, ca);
    var cas := IssueCAs(t, ALL_CAS, issue).value;
    var u := NewPki(pki, ca, issue).value;
    PkiLeavesArePki();
    EveryCA(ca);
    PurgedAt(pki, ca, Authority(ca));
    CAsIssued(t, ALL_CAS, issue, Authority(ca));
    forall c: CA ensures Present(cas, Authority(c)) {
      EveryCA(c);
    }
    PresentStays(cas, u, Authority(ca));
    forall leaf | IsPki(leaf) && Signer(leaf) == ca
      ensures CertAt(u, Crt(Issued(leaf))) == Some(issue(Crt(Issued(leaf))).SignedBy(issue(Crt(Authority(ca))).key)) {
      PurgedAt(pki, ca, Issued(leaf));
      CAsIssued(t, ALL_CAS, issue, Issued(leaf));
      LeavesIssued(cas, PKI_LEAVES, issue, leaf);
    }
  }

  /** The other CAs and their leaves are there as before, byte for byte, and so is
      every other file. */
  lemma NewPkiKeeps(pki: Tree, ca: CA, issue: Issuance, p: Path)
    requires NewPki(pki, ca, issue).Ok? && p in pki
    requires forall item | Filed(item) && Belongs(item, ca) :: !Under(Crt(item), p) && !Under(Key(item), p)
    ensures SameAt(NewPki(pki, ca, issue).value, pki, p)
  {
    hide Assets, Deleted, ToDelete;
    DeletedAt(pki, ToDelete(ca), p);
    forall q | q in ToDelete(ca) ensures !Under(q, p) {
      ToDeleteIs(ca, q);
    }
    ExtendsAt(Purged(pki, ca), NewPki(pki, ca, issue).value, p);
  }

  lemma NewPkiKeepsItem(pki: Tree, ca: CA, issue: Issuance, item: Item)
    requires NewPki(pki, ca, issue).Ok? && Filed(item) && !Belongs(item, ca)
    ensures var u := NewPki(pki, ca, issue).value;
            && (Crt(item) in pki ==> SameAt(u, pki, Crt(item)))
            && (Key(item) in pki ==> SameAt(u, pki, Key(item)))
  {
    hide NewPki;
    forall x | Filed(x) && Belongs(x, ca)
      ensures !Under(Crt(x), Crt(item)) && !Under(Key(x), Crt(item)) && !Under(Crt(x), Key(item)) && !Under(Key(x), Key(item)) {
      FilesDiffer(x, item);
      FilesDiffer(item, x);
    }
    if Crt(item) in pki { NewPkiKeeps(pki, ca, issue, Crt(item)); }
    if Key(item) in pki { NewPkiKeeps(pki, ca, issue, Key(item)); }
  }

  /** Regeneration does not fail for a tree whose other CAs own their keys and whose
      other leaves are signed. */
  lemma HealthyRegenerates(pki: Tree, ca: CA, issue: Issuance)
    requires forall c: CA | c != ca :: Owned(pki, c)
    requires forall leaf | IsPki(leaf) && Signer(leaf) != ca :: Signed(pki, leaf)
    ensures NewPki(pki, ca, issue).Ok?
  {
    hide Crt, Key, Deleted, ToDelete, IsPki, Signer;
    var t := Purged(pki, ca);
    forall c: CA ensures Owned(t, c) || Missing(t, Authority(c)) {
      PurgedAt(pki, ca, Authority(c));
      assert c != ca ==> Owned(pki, c);
    }
    forall leaf | IsPki(leaf) ensures Signed(t, leaf) || Missing(t, Issued(leaf)) {
      PurgedAt(pki, ca, Issued(leaf));
      PurgedAt(pki, ca, Authority(Signer(leaf)));
    }
    AssetsSucceed(t, issue);
  }

  /** kubeadm succeeds where each CA can sign or is missing, and each PKI leaf is
      signed or missing. */
  lemma AssetsSucceed(t: Tree, issue: Issuance)
    requires forall c: CA :: Owned(t, c) || Missing(t, Authority(c))
    requires forall leaf | IsPki(leaf) :: Signed(t, leaf) || Missing(t, Issued(leaf))
    ensures Assets(t, issue).Ok?
  {
    hide Crt, Key, IsPki, Signer, Owned, Missing, Signed, IssueCAs, IssueLeaves;
    forall c: CA ensures c in ALL_CAS { EveryCA(c); }
    CAsSucceed(t, ALL_CAS, issue);
    PkiLeavesArePki();
    LeavesSucceed(IssueCAs(t, ALL_CAS, issue).value, PKI_LEAVES, issue);
  }

  /** Ready for the leaves: whatever is not signed yet can be issued. */
  predicate Issuable(t: Tree, leaf: Leaf)
    requires IsPki(leaf)
  {
    Signed(t, leaf) || (Owned(t, Signer(leaf)) && Missing(t, Issued(leaf)))
  }

  lemma {:induction false} CAsSucceed(t: Tree, cas: seq<CA>, issue: Issuance)
    requires forall c: CA :: Owned(t, c) || (c in cas && Missing(t, Authority(c)))
    requires forall leaf | IsPki(leaf) :: Signed(t, leaf) || Missing(t, Issued(leaf))
    ensures IssueCAs(t, cas, issue).Ok?
    ensures var u := IssueCAs(t, cas, issue).value;
            forall leaf | IsPki(leaf) :: Issuable(u, leaf)
    decreases |cas|
  {
    hide Crt, Key, IsPki, Signer;
    if cas == [] {
    } else {
      var first := IssueCA(t, cas[0], issue).value;
      forall c: CA ensures Owned(first, c) || (c in cas[1..] && Missing(first, Authority(c))) {
        if Owned(t, c) {
          PresentStays(t, first, Authority(c));
        } else if c != cas[0] {
          OneMore(t, first, Authority(cas[0]), Authority(c));
        }
      }
      forall leaf | IsPki(leaf) ensures Signed(first, leaf) || Missing(first, Issued(leaf)) {
        if Signed(t, leaf) {
          SignedStays(t, first, leaf);
        } else {
          OneMore(t, first, Authority(cas[0]), Issued(leaf));
        }
      }
      CAsSucceed(first, cas[1..], issue);
    }
  }

  lemma {:induction false} LeavesSucceed(t: Tree, leaves: seq<Leaf>, issue: Issuance)
    requires (forall leaf | leaf in leaves :: IsPki(leaf))
    requires forall leaf | IsPki(leaf) :: Issuable(t, leaf)
    ensures IssueLeaves(t, leaves, issue).Ok?
    decreases |leaves|
  {
    hide Crt, Key, IsPki, Signer;
    if leaves != [] {
      assert Issuable(t, leaves[0]);
      var first := IssueLeaf(t, leaves[0], issue).value;
      forall leaf | IsPki(leaf) ensures Issuable(first, leaf) {
        assert Issuable(t, leaf);
        if Signed(t, leaf) {
          SignedStays(t, first, leaf);
        } else if leaf != leaves[0] {
          PresentStays(t, first, Authority(Signer(leaf)));
          OneMore(t, first, Issued(leaves[0]), Issued(leaf));
        }
      }
      LeavesSucceed(first, leaves[1..], issue);
    }
  }
}
