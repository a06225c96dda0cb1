/** File trees as finite maps from paths to nodes, with the two operations every
    file-system primitive is made of: `Sub` reads the tree below a path, `Graft`
    replaces it. The lemmas are the laws of that pair. */
module Trees {
  import opened Types

  type Path = seq<string>

  datatype Node = Dir | File(data: Data)

  type Tree = map<Path, Node>

  /** `q` is `p` or lies below it. */
  predicate Under(p: Path, q: Path) {
    |p| <= |q| && q[..|p|] == p
  }

  /** Neither path is an ancestor of the other. */
  predicate Apart(p: Path, q: Path) {
    !Under(p, q) && !Under(q, p)
  }

  /** The tree below `p`, with paths relative to `p`. */
  function Sub(t: Tree, p: Path): Tree {
    map r | r in (set q | q in t && Under(p, q) :: q[|p|..]) :: assert p + r in t by { InSuffixes(t, p, r); } t[p + r]
  }

  lemma InSuffixes(t: Tree, p: Path, r: Path)
    ensures r in (set q | q in t && Under(p, q) :: q[|p|..]) <==> p + r in t
  {
    if p + r in t {
      assert Under(p, p + r) && (p + r)[|p|..] == r;
    }
    assert forall q | Under(p, q) && q[|p|..] == r :: q == p + r;
  }

  lemma InSub(t: Tree, p: Path, r: Path)
    ensures r in Sub(t, p) <==> p + r in t
    ensures r in Sub(t, p) ==> Sub(t, p)[r] == t[p + r]
  {
    InSuffixes(t, p, r);
  }

  /** `t` with everything at or below `p` replaced by `s`. */
  function Graft(t: Tree, p: Path, s: Tree): Tree {
    (map q | q in t && !Under(p, q) :: t[q])
    + (map q | q in (set r | r in s :: p + r) :: assert q[|p|..] in s by { InPrefixed(p, s, q); } s[q[|p|..]])
  }

  lemma InPrefixed(p: Path, s: Tree, q: Path)
    ensures q in (set r | r in s :: p + r) <==> Under(p, q) && q[|p|..] in s
  {
    assert forall r | q == p + r :: q[|p|..] == r;
    assert Under(p, q) ==> q == p + q[|p|..];
  }

  lemma InGraft(t: Tree, p: Path, s: Tree, q: Path)
    ensures q in Graft(t, p, s) <==> if Under(p, q) then q[|p|..] in s else q in t
    ensures q in Graft(t, p, s) ==> Graft(t, p, s)[q] == if Under(p, q) then s[q[|p|..]] else t[q]
  {
    InPrefixed(p, s, q);
  }

  /** A path exists when it, or something below it, is a node: a file system holds
      every ancestor of a node. */
  predicate Exists(t: Tree, p: Path) {
    Sub(t, p) != map[]
  }

  /** The tree of a single file. */
  function Leaf(data: Data): Tree {
    map[[] := File(data)]
  }

  const EMPTY_DIR: Tree := map[[] := Dir]

  /** What `os.MkdirAll` does: nothing when the path exists, else an empty directory. */
  function Mkdir(t: Tree, p: Path): Tree {
    if Exists(t, p) then t else t[p := Dir]
  }

  // ---- the laws ----

  predicate SameAt(t: Tree, u: Tree, r: Path) {
    (r in t <==> r in u) && (r in t ==> t[r] == u[r])
  }

  lemma TreeExtensionality(t: Tree, u: Tree)
    requires forall r :: SameAt(t, u, r)
    ensures t == u
  {
    assert forall r :: r in t ==> SameAt(t, u, r);
    assert forall r :: r in u ==> SameAt(t, u, r);
  }

  lemma SubOfSub(t: Tree, p: Path, q: Path)
    ensures Sub(Sub(t, p), q) == Sub(t, p + q)
  {
    hide Sub;
    forall r ensures SameAt(Sub(Sub(t, p), q), Sub(t, p + q), r) {
      assert p + (q + r) == (p + q) + r;
      InSub(Sub(t, p), q, r);
      InSub(t, p, q + r);
      InSub(t, p + q, r);
    }
    TreeExtensionality(Sub(Sub(t, p), q), Sub(t, p + q));
  }

  /** Reading at or below the grafted path sees the new tree. */
  lemma SubGraftBelow(t: Tree, p: Path, s: Tree, q: Path)
    ensures Sub(Graft(t, p, s), p + q) == Sub(s, q)
  {
    hide Sub, Graft;
    var g := Graft(t, p, s);
    forall r ensures SameAt(Sub(g, p + q), Sub(s, q), r) {
      assert Under(p, (p + q) + r) && ((p + q) + r)[|p|..] == q + r;
      InSub(g, p + q, r);
      InGraft(t, p, s, (p + q) + r);
      InSub(s, q, r);
    }
    TreeExtensionality(Sub(g, p + q), Sub(s, q));
  }

  lemma SubAll(s: Tree)
    ensures Sub(s, []) == s
  {
    hide Sub;
    forall r ensures SameAt(Sub(s, []), s, r) {
      assert [] + r == r;
      InSub(s, [], r);
    }
    TreeExtensionality(Sub(s, []), s);
  }

  lemma SubGraftSame(t: Tree, p: Path, s: Tree)
    ensures Sub(Graft(t, p, s), p) == s
  {
    hide Sub, Graft;
    SubGraftBelow(t, p, s, []);
    assert p + [] == p;
    SubAll(s);
  }

  /** Reading apart from the grafted path sees the old tree. */
  lemma SubGraftApart(t: Tree, p: Path, s: Tree, q: Path)
    requires Apart(p, q)
    ensures Sub(Graft(t, p, s), q) == Sub(t, q)
  {
    hide Sub, Graft;
    forall r ensures SameAt(Sub(Graft(t, p, s), q), Sub(t, q), r) {
      ApartBelow(p, q, r);
      InSub(Graft(t, p, s), q, r);
      InGraft(t, p, s, q + r);
      InSub(t, q, r);
    }
    TreeExtensionality(Sub(Graft(t, p, s), q), Sub(t, q));
  }

  /** Reading above the grafted path is grafting inside what was read. */
  lemma SubGraftAbove(t: Tree, p: Path, q: Path, s: Tree)
    ensures Sub(Graft(t, p + q, s), p) == Graft(Sub(t, p), q, s)
  {
    hide Sub, Graft;
    forall r ensures SameAt(Sub(Graft(t, p + q, s), p), Graft(Sub(t, p), q, s), r) {
      UnderShift(p, q, r);
      InSub(Graft(t, p + q, s), p, r);
      InGraft(t, p + q, s, p + r);
      InGraft(Sub(t, p), q, s, r);
      InSub(t, p, r);
    }
    TreeExtensionality(Sub(Graft(t, p + q, s), p), Graft(Sub(t, p), q, s));
  }

  lemma UnderShift(p: Path, q: Path, r: Path)
    ensures Under(p + q, p + r) == Under(q, r)
    ensures Under(q, r) ==> (p + r)[|p + q|..] == r[|q|..]
  {
    if |q| <= |r| {
      assert (p + r)[..|p + q|] == p + r[..|q|];
      assert q == (p + q)[|p|..];
      assert r[..|q|] == (p + r[..|q|])[|p|..];
    }
  }

  /** Two ancestors of one path are ancestors of one another. */
  lemma UnderLinear(p: Path, q: Path, x: Path)
    requires Under(p, x) && Under(q, x)
    ensures Under(p, q) || Under(q, p)
  {
    if |p| <= |q| {
      assert q[..|p|] == x[..|p|];
    } else {
      assert p[..|q|] == x[..|q|];
    }
  }

  lemma UnderTransitive(p: Path, q: Path, x: Path)
    requires Under(p, q) && Under(q, x)
    ensures Under(p, x)
  {
    assert x[..|p|] == q[..|p|];
  }

  lemma UnderSelf(p: Path, r: Path)
    ensures Under(p, p + r)
  {
    assert (p + r)[..|p|] == p;
  }

  lemma ApartBelow(p: Path, q: Path, r: Path)
    requires Apart(p, q)
    ensures Apart(p, q + r)
  {
    UnderSelf(q, r);
    if Under(p, q + r) {
      UnderLinear(p, q, q + r);
    }
    if Under(q + r, p) {
      UnderTransitive(q, q + r, p);
    }
  }

  lemma ApartSymmetric(p: Path, q: Path)
    ensures Apart(p, q) == Apart(q, p)
  {}

  /** Two paths that part at their first component after `p`. */
  lemma ApartSiblings(p: Path, a: string, r: Path, b: string, q: Path)
    requires a != b
    ensures Apart(p + [a] + r, p + [b] + q)
  {
    var x, y := p + [a] + r, p + [b] + q;
    assert x[|p|] == a && y[|p|] == b;
    UnderAt(x, y, |p|);
    UnderAt(y, x, |p|);
  }

  lemma UnderAt(p: Path, q: Path, i: nat)
    requires i < |p| && i < |q|
    ensures Under(p, q) ==> p[i] == q[i]
  {
    if Under(p, q) {
      assert q[..|p|][i] == q[i];
    }
  }

  /** Making a directory shows only when reading at it or above it. */
  lemma SubMkdir(t: Tree, p: Path, q: Path)
    requires !Under(q, p)
    ensures Sub(Mkdir(t, p), q) == Sub(t, q)
  {
    hide Sub;
    forall r ensures SameAt(Sub(Mkdir(t, p), q), Sub(t, q), r) {
      UnderSelf(q, r);
      InSub(Mkdir(t, p), q, r);
      InSub(t, q, r);
    }
    TreeExtensionality(Sub(Mkdir(t, p), q), Sub(t, q));
  }

  lemma MkdirIsGraft(t: Tree, p: Path)
    requires !Exists(t, p)
    ensures Mkdir(t, p) == Graft(t, p, EMPTY_DIR)
  {
    hide Sub, Graft;
    forall q ensures SameAt(Mkdir(t, p), Graft(t, p, EMPTY_DIR), q) {
      InGraft(t, p, EMPTY_DIR, q);
      if Under(p, q) {
        assert q == p + q[|p|..];
        InSub(t, p, q[|p|..]);
        assert q[|p|..] == [] <==> q == p;
      }
      assert Under(p, p) && p[|p|..] == [];
    }
    TreeExtensionality(Mkdir(t, p), Graft(t, p, EMPTY_DIR));
  }

  lemma ExistsAbove(t: Tree, p: Path, q: Path)
    requires Exists(t, p + q)
    ensures Exists(t, p)
  {
    hide Sub;
    var r :| r in Sub(t, p + q);
    assert p + (q + r) == (p + q) + r;
    InSub(t, p + q, r);
    InSub(t, p, q + r);
  }
}
