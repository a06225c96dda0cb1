/** What sorting by a comparison that ranks any two elements yields. */
module Sorting {

  ghost predicate Ranks<T(!new)>(atLeast: (T, T) -> bool) {
    && (forall a, b :: atLeast(a, b) || atLeast(b, a))
    && (forall a, b, c | atLeast(a, b) && atLeast(b, c) :: atLeast(a, c))
  }

  predicate Sorted<T>(s: seq<T>, atLeast: (T, T) -> bool) {
    forall i, j | 0 <= i < j < |s| :: atLeast(s[i], s[j])
  }

  function Sort<T(!new)>(s: seq<T>, atLeast: (T, T) -> bool): (sorted: seq<T>)
    requires Ranks(atLeast)
    ensures Sorted(sorted, atLeast) && multiset(sorted) == multiset(s)
  {
    if s == [] then []
    else
      assert s == s[..|s| - 1] + [s[|s| - 1]];
      Insert(s[|s| - 1], Sort(s[..|s| - 1], atLeast), atLeast)
  }

  function Insert<T(!new)>(x: T, s: seq<T>, atLeast: (T, T) -> bool): (r: seq<T>)
    requires Ranks(atLeast) && Sorted(s, atLeast)
    ensures Sorted(r, atLeast) && multiset(r) == multiset(s) + multiset{x}
  {
    if s == [] then [x]
    else if atLeast(x, s[0]) then
      assert Sorted([x] + s, atLeast) by { Atop(x, s, s, atLeast); }
      [x] + s
    else
      var r := Insert(x, s[1..], atLeast);
      assert s == [s[0]] + s[1..];
      assert Sorted([s[0]] + r, atLeast) by { Atop(s[0], s[1..] + [x], r, atLeast); }
      [s[0]] + r
  }

  /** `top` ranks with every element of `s`, of which `r` is a sorted reordering. */
  lemma Atop<T(!new)>(top: T, s: seq<T>, r: seq<T>, atLeast: (T, T) -> bool)
    requires Ranks(atLeast) && Sorted(r, atLeast) && multiset(r) == multiset(s)
    requires forall x | x in s :: atLeast(top, x)
    ensures Sorted([top] + r, atLeast)
  {
    forall i | 0 <= i < |r| ensures atLeast(top, r[i]) {
      assert r[i] in multiset(r);
    }
  }
}
