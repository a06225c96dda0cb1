/** internal/teardown.unmountKubeletMounts: which mount points are detached, in which
    order, and which failures count. */
module Unmount {
  import opened Types
  import opened Names
  import opened Sorting

  // ---- /proc/mounts ----

  /** `strings.Split` on a single character. */
  function Split(s: string, c: char): (parts: seq<string>)
    ensures |parts| > 0 && forall p | p in parts :: c !in p
  {
    if s == [] then [[]]
    else
      var rest := Split(s[1..], c);
      if s[0] == c then [[]] + rest else [[s[0]] + rest[0]] + rest[1..]
  }

  function Join(parts: seq<string>, c: char): string {
    if parts == [] then [] else if |parts| == 1 then parts[0] else parts[0] + [c] + Join(parts[1..], c)
  }

  /** Splitting loses nothing. */
  lemma {:induction false} JoinSplit(s: string, c: char)
    ensures Join(Split(s, c), c) == s
  {
    if s != [] {
      JoinSplit(s[1..], c);
      var rest := Split(s[1..], c);
      assert s == [s[0]] + s[1..];
      if s[0] == c {
        assert ([[]] + rest)[1..] == rest;
      } else {
        assert ([[s[0]] + rest[0]] + rest[1..])[1..] == rest[1..];
        if |rest| > 1 {
          assert [s[0]] + (rest[0] + [c] + Join(rest[1..], c)) == ([s[0]] + rest[0]) + [c] + Join(rest[1..], c);
        }
      }
    }
  }

  /** The mount point of a line, when it is a target. */
  function TargetOf(line: string, prefix: string): seq<string> {
    var fields := Split(line, ' ');
    if |fields| < 2 || !HasPrefix(fields[1], prefix) then [] else [fields[1]]
  }

  function Targets(lines: seq<string>, prefix: string): seq<string> {
    if lines == [] then [] else Targets(lines[..|lines| - 1], prefix) + TargetOf(lines[|lines| - 1], prefix)
  }

  function PrefixOf(kubeletDir: string): string {
    if HasSuffix(kubeletDir, "/") then kubeletDir else kubeletDir + "/"
  }

  // ---- byte-lexicographic order ----

  predicate Below(a: string, b: string) {
    if b == [] then false
    else if a == [] then true
    else if a[0] != b[0] then a[0] < b[0]
    else Below(a[1..], b[1..])
  }

  lemma {:induction false} BelowTransitive(a: string, b: string, c: string)
    requires !Below(a, b) && !Below(b, c)
    ensures !Below(a, c)
  {
    if a != [] && b != [] && c != [] && a[0] == b[0] == c[0] {
      BelowTransitive(a[1..], b[1..], c[1..]);
    }
  }

  lemma {:induction false} BelowAntisymmetric(a: string, b: string)
    requires Below(a, b)
    ensures !Below(b, a)
  {
    if a != [] && a[0] == b[0] {
      BelowAntisymmetric(a[1..], b[1..]);
    }
  }

  lemma {:induction false} PrefixIsBelow(a: string, b: string)
    requires HasPrefix(b, a) && |a| < |b|
    ensures Below(a, b)
  {
    if a != [] {
      assert a[0] == b[..|a|][0] == b[0];
      assert b[1..][..|a| - 1] == b[..|a|][1..] == a[1..];
      PrefixIsBelow(a[1..], b[1..]);
    }
  }

  /** `sort.Reverse` of the byte order. */
  predicate NotBelow(a: string, b: string) {
    !Below(a, b)
  }

  lemma NotBelowRanks()
    ensures Ranks(NotBelow)
  {
    hide Below;
    forall a, b ensures NotBelow(a, b) || NotBelow(b, a) {
      if Below(a, b) { BelowAntisymmetric(a, b); }
    }
    forall a, b, c | NotBelow(a, b) && NotBelow(b, c) ensures NotBelow(a, c) {
      BelowTransitive(a, b, c);
    }
  }

  predicate Descending(ts: seq<string>) {
    Sorted(ts, NotBelow)
  }

  /** `child` is mounted somewhere below `parent`. */
  predicate Beneath(child: string, parent: string) {
    HasPrefix(child, parent + "/")
  }

  /** In descending order a mount comes after everything beneath it. */
  lemma ChildrenFirst(ts: seq<string>)
    requires Descending(ts)
    ensures forall i, j | 0 <= i < j < |ts| :: !Beneath(ts[j], ts[i])
  {
    hide Below;
    forall i, j | 0 <= i < j < |ts| ensures !Beneath(ts[j], ts[i]) {
      if Beneath(ts[j], ts[i]) {
        assert (ts[i] + "/")[..|ts[i]|] == ts[i];
        assert ts[j][..|ts[i]|] == ts[j][..|ts[i]| + 1][..|ts[i]|];
        PrefixIsBelow(ts[i], ts[j]);
      }
    }
  }

  // ---- the loop ----

  /** What `umount2` answers. */
  datatype Errno = Success | EINVAL | OtherErrno

  function Failures(ts: seq<string>, answers: seq<Errno>): seq<string>
    requires |ts| == |answers|
  {
    if ts == [] then []
    else
      var n := |ts| - 1;
      Failures(ts[..n], answers[..n]) + if answers[n].OtherErrno? then [ts[n]] else []
  }

  /** unmountKubeletMounts: every mount point strictly under the kubelet directory is
      processed, as often as it is listed and nothing else; none before one beneath
      it; and the error names exactly those that failed with anything but EINVAL. */
  method UnmountKubeletMounts(mounts: Result<string>, kubeletDir: string, kernel: nat -> Errno)
    returns (processed: seq<string>, answers: seq<Errno>, errs: seq<string>, ok: bool)
    ensures mounts.Err? ==> processed == [] && !ok
    ensures mounts.Ok? ==> multiset(processed) == multiset(Targets(Split(mounts.value, '\n'), PrefixOf(kubeletDir)))
    ensures forall i, j | 0 <= i < j < |processed| :: !Beneath(processed[j], processed[i])
    ensures |answers| == |processed| && errs == Failures(processed, answers)
    ensures mounts.Ok? ==> (ok <==> errs == [])
    ensures mounts.Ok? && (forall i: nat :: !kernel(i).OtherErrno?) ==> ok
  {
    hide Split, Sorted, Below;
    if mounts.Err? { return [], [], [], false; }
    var targets := CollectTargets(mounts.value, kubeletDir);
    NotBelowRanks();
    targets := Sort(targets, NotBelow);
    ChildrenFirst(targets);
    answers, errs := Detach(targets, kernel);
    processed := targets;
    ok := errs == [];
    if errs != [] {
      FailuresAre(targets, answers, errs[0]);
    }
  }

  method CollectTargets(mounts: string, kubeletDir: string) returns (targets: seq<string>)
    ensures targets == Targets(Split(mounts, '\n'), PrefixOf(kubeletDir))
  {
    hide Split, HasPrefix;
    var prefix := PrefixOf(kubeletDir);
    var lines := Split(mounts, '\n');
    targets := [];
    for i := 0 to |lines|
      invariant targets == Targets(lines[..i], prefix)
    {
      assert lines[..i + 1][..i] == lines[..i];
      var fields := Split(lines[i], ' ');
      if |fields| < 2 || !HasPrefix(fields[1], prefix) { continue; }
      targets := targets + [fields[1]];
    }
    assert lines[..|lines|] == lines;
  }

  /** `syscall.Unmount` on each target in turn. */
  method Detach(targets: seq<string>, kernel: nat -> Errno) returns (answers: seq<Errno>, errs: seq<string>)
    ensures |answers| == |targets| && errs == Failures(targets, answers)
    ensures forall i: nat | i < |answers| :: answers[i] == kernel(i)
  {
    answers, errs := [], [];
    for i := 0 to |targets|
      invariant |answers| == i && errs == Failures(targets[..i], answers)
      invariant forall k: nat | k < i :: answers[k] == kernel(k)
    {
      var answer := kernel(i);
      assert targets[..i + 1][..i] == targets[..i];
      assert (answers + [answer])[..i] == answers;
      answers := answers + [answer];
      if answer.Success? || answer.EINVAL? { continue; }
      errs := errs + [targets[i]];
    }
    assert targets[..|targets|] == targets;
  }

  /** The second field of a line is its mount point. */
  predicate Mounts(line: string, t: string) {
    |Split(line, ' ')| >= 2 && Split(line, ' ')[1] == t
  }

  /** A target is a mount point listed under the kubelet directory. */
  lemma {:induction false} TargetsAre(lines: seq<string>, prefix: string, t: string)
    ensures t in Targets(lines, prefix) <==> exists line | line in lines :: Mounts(line, t) && HasPrefix(t, prefix)
  {
    hide Split, HasPrefix;
    if lines != [] {
      var rest, last := lines[..|lines| - 1], lines[|lines| - 1];
      TargetsAre(rest, prefix, t);
      assert lines == rest + [last];
      assert t in TargetOf(last, prefix) <==> Mounts(last, t) && HasPrefix(t, prefix);
      assert last in lines && forall line | line in rest :: line in lines;
      if line :| line in lines && Mounts(line, t) && HasPrefix(t, prefix) {
        assert line in rest || line == last;
      }
    }
  }

  /** Nothing but EINVAL is dropped. */
  lemma {:induction false} FailuresAre(ts: seq<string>, answers: seq<Errno>, t: string)
    requires |ts| == |answers|
    ensures t in Failures(ts, answers) <==> exists i | 0 <= i < |ts| :: ts[i] == t && answers[i].OtherErrno?
  {
    if ts != [] {
      var n := |ts| - 1;
      FailuresAre(ts[..n], answers[..n], t);
      assert forall i | 0 <= i < n :: ts[..n][i] == ts[i] && answers[..n][i] == answers[i];
      if i :| 0 <= i < |ts| && ts[i] == t && answers[i].OtherErrno? {
        assert i < n ==> ts[..n][i] == t && answers[..n][i].OtherErrno?;
      }
    }
  }
}
