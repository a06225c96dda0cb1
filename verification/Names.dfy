/** Backup directory names: `<deployment>_<boot>`, the cut `Prune` makes at the
    first underscore, and the prefix test of `LatestForDeployment`. */
module Names {
  import opened Types

  predicate HasPrefix(s: string, p: string) {
    |p| <= |s| && s[..|p|] == p
  }

  predicate HasSuffix(s: string, p: string) {
    |p| <= |s| && s[|s| - |p|..] == p
  }

  /** The part of `s` before its first underscore; all of `s` when it has none. */
  function DeployOf(s: string): (d: string)
    ensures '_' !in d
    ensures if '_' in s then HasPrefix(s, d + "_") else d == s
  {
    if s == [] || s[0] == '_' then ""
    else
      var d := DeployOf(s[1..]);
      assert s == [s[0]] + s[1..];
      assert '_' in s <==> '_' in s[1..];
      assert '_' in s ==> s[..|d| + 2] == [s[0]] + s[1..][..|d| + 1];
      [s[0]] + d
  }

  function Name(m: LastBoot): string {
    m.deploymentID + "_" + m.bootID
  }

  /** What `List` shows: no work in progress, and an underscore somewhere. */
  predicate Listable(n: string) {
    !HasSuffix(n, ".tmp") && !HasSuffix(n, ".restoring") && '_' in n
  }

  predicate GoodBootID(b: string) {
    b != "" && !HasSuffix(b, ".tmp") && !HasSuffix(b, ".restoring")
  }

  /** The first-underscore cut and the prefix test pick the same backups. */
  lemma PrefixIffCut(n: string, d: string)
    requires '_' !in d && '_' in n
    ensures HasPrefix(n, d + "_") <==> DeployOf(n) == d
  {
    var c := DeployOf(n);
    FirstUnderscore(n, c);
    if HasPrefix(n, d + "_") {
      FirstUnderscore(n, d);
      assert |c| == |d|;
      assert c == n[..|c|] && d == n[..|d|] by {
        assert (c + "_")[..|c|] == c && (d + "_")[..|d|] == d;
      }
    }
  }

  /** A prefix `d_` with no underscore in `d` ends at the first underscore. */
  lemma FirstUnderscore(n: string, d: string)
    requires '_' !in d && HasPrefix(n, d + "_")
    ensures |d| < |n| && n[|d|] == '_'
    ensures forall i | 0 <= i < |d| :: n[i] != '_'
  {
    assert n[|d|] == (d + "_")[|d|];
    forall i | 0 <= i < |d| ensures n[i] != '_' {
      assert n[i] == (d + "_")[i] == d[i];
    }
  }

  lemma DeployOfName(m: LastBoot)
    requires '_' !in m.deploymentID
    ensures '_' in Name(m) && DeployOf(Name(m)) == m.deploymentID
  {
    assert Name(m)[|m.deploymentID|] == '_';
    assert HasPrefix(Name(m), m.deploymentID + "_");
    PrefixIffCut(Name(m), m.deploymentID);
  }

  lemma NameInjective(a: LastBoot, b: LastBoot)
    requires '_' !in a.deploymentID && '_' !in b.deploymentID
    requires Name(a) == Name(b)
    ensures a.deploymentID == b.deploymentID && a.bootID == b.bootID
  {
    DeployOfName(a);
    DeployOfName(b);
    assert a.bootID == Name(a)[|a.deploymentID| + 1..];
    assert b.bootID == Name(b)[|b.deploymentID| + 1..];
  }

  lemma NameListable(m: LastBoot)
    requires GoodBootID(m.bootID)
    ensures Listable(Name(m))
  {
    assert Name(m)[|m.deploymentID|] == '_';
    SuffixOfName(m, ".tmp");
    SuffixOfName(m, ".restoring");
  }

  lemma SuffixOfName(m: LastBoot, x: string)
    requires '_' !in x
    ensures HasSuffix(Name(m), x) ==> HasSuffix(m.bootID, x)
  {
    var n := Name(m);
    var i := |m.deploymentID|;
    assert n[i] == '_' && n[i + 1..] == m.bootID;
    if HasSuffix(n, x) {
      assert forall k | 0 <= k < |x| :: x[k] == n[|n| - |x| + k];
      assert i < |n| - |x|;
      assert m.bootID[|m.bootID| - |x|..] == n[|n| - |x|..];
    }
  }
}
