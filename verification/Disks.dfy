/** The host's disk and the system calls picokube makes on it. Any call may fail;
    what it then leaves behind comes from the `faults` the disk was made with, so a
    fact about every `Disk` is a fact about every way of failing. A process that
    dies inside a call leaves what some failing call leaves, so the `log` of the
    disk after every call is the set of states a death can leave. */
module Disks {
  import opened Types
  import opened Trees
  import opened Protocol
  import opened Layouts
  import opened Effects

  /** Whether a call succeeds and, if not, what is left: arbitrary `debris` where
      something was being written, the `kept` paths where it was being removed. */
  datatype Outcome = Outcome(ok: bool, debris: Tree, kept: set<Path>)

  function Kept(t: Tree, kept: set<Path>): Tree {
    map p | p in t && p in kept :: t[p]
  }

  function Ticked(m: Moment): Moment {
    m.(clock := m.clock + 1)
  }

  /** `os.MkdirAll(p)`. */
  function Made(l: Layout, m: Moment, p: Path): Moment {
    if Exists(m.fs, p) then Ticked(m) else After(l, m, p, EMPTY_DIR)
  }

  /** `os.Rename`, which keeps the modification time of a renamed backup entry. */
  function Renamed(l: Layout, m: Moment, src: Path, dst: Path): Moment {
    var b := l.BackupsDir();
    m.(fs := Graft(Graft(m.fs, src, map[]), dst, Sub(m.fs, src)),
       mtimes := if Under(b, src) && Under(b, dst) && |src| == |dst| == |b| + 1
                 then m.mtimes[dst[|b|] := Mtime(m.mtimes, src[|b|])] else m.mtimes,
       clock := m.clock + 1)
  }

  /** `renameat2(RENAME_EXCHANGE)`. */
  function Exchanged(m: Moment, a: Path, b: Path): Moment {
    m.(fs := Graft(Graft(m.fs, a, Sub(m.fs, b)), b, Sub(m.fs, a)), clock := m.clock + 1)
  }

  /** Going from `a` to `b` is a step of the boot protocol; time passes when the disk
      changes. */
  ghost predicate Can(l: Layout, a: Moment, b: Moment) {
    Next(View(l, a), View(l, b)) && (a.clock < b.clock || a.fs == b.fs)
  }

  ghost predicate Steps(l: Layout, log: seq<Moment>) {
    forall i | 0 <= i < |log| - 1 :: Can(l, log[i], log[i + 1])
  }

  /** Some call between the two readings of the clock failed. */
  ghost predicate Faulty(faults: nat -> Outcome, from: nat, to: nat) {
    exists i: nat | from <= i < to :: !faults(i).ok
  }

  /** picokube's directory, once there, stays. */
  ghost predicate Rooted(l: Layout, log: seq<Moment>) {
    forall i | 0 <= i < |log| - 1 :: l.picoKubeVarDir in log[i].fs ==> l.picoKubeVarDir in log[i + 1].fs
  }

  lemma StaysIn(t: Tree, p: Path, s: Tree, q: Path)
    requires !Under(p, q)
    ensures q in Graft(t, p, s) <==> q in t
  {
    hide Graft;
    InGraft(t, p, s, q);
  }

  lemma MadeStaysIn(t: Tree, p: Path, q: Path)
    requires !Exists(t, p)
    ensures q in t ==> q in Graft(t, p, EMPTY_DIR)
  {
    hide Graft, Sub;
    InGraft(t, p, EMPTY_DIR, q);
    if q in t && Under(p, q) {
      assert q == p + q[|p|..];
      InSub(t, p, q[|p|..]);
    }
  }

  class Disk {
    const l: Layout
    const faults: nat -> Outcome
    var fs: Tree
    var mtimes: map<string, nat>
    var clock: nat
    /** Where the process and the machine around it stand. */
    ghost var mark: Mark
    ghost var log: seq<Moment>

    ghost function Now(): Moment
      reads this
    {
      Moment(fs, mtimes, clock, mark)
    }

    ghost function State(): State
      reads this
    {
      View(l, Now())
    }

    ghost predicate Valid()
      reads this
    {
      WellFormed(l) && |log| > 0 && log[|log| - 1] == Now() && Steps(l, log) && Rooted(l, log)
    }

    constructor (l: Layout, faults: nat -> Outcome, fs: Tree, mtimes: map<string, nat>, clock: nat, ghost mark: Mark)
      requires WellFormed(l)
      ensures Valid() && this.l == l && this.faults == faults && log == [Moment(fs, mtimes, clock, mark)]
    {
      this.l, this.faults, this.fs, this.mtimes, this.clock := l, faults, fs, mtimes, clock;
      this.mark := mark;
      this.log := [Moment(fs, mtimes, clock, mark)];
    }

    /** Every change below ends here: the new state must be a protocol step. */
    ghost method Note(to: Mark)
      requires WellFormed(l) && |log| > 0 && Steps(l, log) && Rooted(l, log)
      requires Can(l, log[|log| - 1], Now().(mark := to))
      requires l.picoKubeVarDir in log[|log| - 1].fs ==> l.picoKubeVarDir in fs
      modifies this`mark, this`log
      ensures Valid() && log == old(log) + [Now()] && mark == to
    {
      hide Can;
      ghost var was := log;
      mark := to;
      log := log + [Now()];
      forall i | 0 <= i < |log| - 1 ensures Can(l, log[i], log[i + 1]) {
        if i < |was| - 1 {
          assert Can(l, was[i], was[i + 1]);
        }
      }
    }

    /** Moves the process on without touching the disk. */
    ghost method Advance(to: Mark)
      requires Valid() && Can(l, Now(), Now().(mark := to))
      modifies this`mark, this`log
      ensures Valid() && log == old(log) + [Now()] && Now() == old(Now()).(mark := to)
    {
      Note(to);
    }

    method MkdirAll(p: Path) returns (ok: bool)
      requires Valid() && Can(l, Now(), Made(l, Now(), p)) && Can(l, Now(), Ticked(Now()))
      modifies this
      ensures Valid() && log == old(log) + [Now()]
      ensures Now() == if ok then Made(l, old(Now()), p) else Ticked(old(Now()))
      ensures clock == old(clock) + 1 && ok == faults(old(clock)).ok
    {
      hide Can, Sub, Graft;
      ok := faults(clock).ok;
      if ok && !Exists(fs, p) {
        MadeStaysIn(fs, p, l.picoKubeVarDir);
        fs, mtimes := Graft(fs, p, EMPTY_DIR), Touched(l, mtimes, p, clock);
      }
      clock := clock + 1;
      Note(mark);
    }

    /** `os.RemoveAll`; a failure may have removed part of the tree. */
    method RemoveAll(p: Path, ghost to: Mark) returns (ok: bool)
      requires Valid() && !Under(p, l.picoKubeVarDir) && Can(l, Now(), After(l, Now(), p, map[]).(mark := to))
      requires forall t: Tree | t.Items <= Sub(fs, p).Items :: Can(l, Now(), After(l, Now(), p, t))
      modifies this
      ensures Valid() && log == old(log) + [Now()]
      ensures ok ==> Now() == After(l, old(Now()), p, map[]).(mark := to)
      ensures !ok ==> Now() == After(l, old(Now()), p, Kept(Sub(old(fs), p), faults(old(clock)).kept))
      ensures clock == old(clock) + 1 && ok == faults(old(clock)).ok
    {
      hide Can, Sub, Graft;
      var outcome := faults(clock);
      ok := outcome.ok;
      var left := if ok then map[] else Kept(Sub(fs, p), outcome.kept);
      assert left.Items <= Sub(fs, p).Items;
      StaysIn(fs, p, left, l.picoKubeVarDir);
      fs, mtimes, clock := Graft(fs, p, left), Touched(l, mtimes, p, clock), clock + 1;
      Note(if ok then to else mark);
    }

    /** Removes a file, or a whole backup: one step that happens or does not. */
    method Remove(p: Path, ghost to: Mark) returns (ok: bool)
      requires Valid() && !Under(p, l.picoKubeVarDir)
      requires Can(l, Now(), After(l, Now(), p, map[]).(mark := to)) && Can(l, Now(), Ticked(Now()))
      modifies this
      ensures Valid() && log == old(log) + [Now()]
      ensures Now() == if ok then After(l, old(Now()), p, map[]).(mark := to) else Ticked(old(Now()))
      ensures clock == old(clock) + 1 && ok == faults(old(clock)).ok
    {
      hide Can, Sub, Graft;
      ok := faults(clock).ok;
      if ok {
        StaysIn(fs, p, map[], l.picoKubeVarDir);
        fs, mtimes := Graft(fs, p, map[]), Touched(l, mtimes, p, clock);
      }
      clock := clock + 1;
      Note(if ok then to else mark);
    }

    /** `cp` of a tree or a file; a failure leaves anything at the destination. */
    method Copy(src: Path, dst: Path, ghost to: Mark) returns (ok: bool)
      requires Valid() && !Under(dst, l.picoKubeVarDir) && Can(l, Now(), After(l, Now(), dst, Sub(fs, src)).(mark := to))
      requires forall t: Tree :: Can(l, Now(), After(l, Now(), dst, t))
      modifies this
      ensures Valid() && log == old(log) + [Now()]
      ensures ok ==> Now() == After(l, old(Now()), dst, Sub(old(fs), src)).(mark := to)
      ensures !ok ==> Now() == After(l, old(Now()), dst, faults(old(clock)).debris)
      ensures clock == old(clock) + 1 && ok == faults(old(clock)).ok
    {
      hide Can, Sub, Graft;
      var outcome := faults(clock);
      ok := outcome.ok;
      assert Can(l, Now(), After(l, Now(), dst, outcome.debris));
      StaysIn(fs, dst, if ok then Sub(fs, src) else outcome.debris, l.picoKubeVarDir);
      fs, mtimes, clock := Graft(fs, dst, if ok then Sub(fs, src) else outcome.debris), Touched(l, mtimes, dst, clock), clock + 1;
      Note(if ok then to else mark);
    }

    /** `os.WriteFile`, and what library code writes below a directory: on success
        the given tree, on failure anything. */
    method Write(p: Path, t: Tree) returns (ok: bool)
      requires Valid() && !Under(p, l.picoKubeVarDir)
      requires forall u: Tree :: Can(l, Now(), After(l, Now(), p, u))
      modifies this
      ensures Valid() && log == old(log) + [Now()]
      ensures Now() == After(l, old(Now()), p, if ok then t else faults(old(clock)).debris)
      ensures clock == old(clock) + 1 && ok == faults(old(clock)).ok
    {
      hide Can, Sub, Graft;
      var outcome := faults(clock);
      ok := outcome.ok;
      assert Can(l, Now(), After(l, Now(), p, if ok then t else outcome.debris));
      StaysIn(fs, p, if ok then t else outcome.debris, l.picoKubeVarDir);
      fs, mtimes, clock := Graft(fs, p, if ok then t else outcome.debris), Touched(l, mtimes, p, clock), clock + 1;
      Note(mark);
    }

    method Rename(src: Path, dst: Path, ghost to: Mark) returns (ok: bool)
      requires Valid() && !Under(src, l.picoKubeVarDir) && !Under(dst, l.picoKubeVarDir)
      requires Can(l, Now(), Renamed(l, Now(), src, dst).(mark := to)) && Can(l, Now(), Ticked(Now()))
      modifies this
      ensures Valid() && log == old(log) + [Now()]
      ensures Now() == if ok then Renamed(l, old(Now()), src, dst).(mark := to) else Ticked(old(Now()))
      ensures clock == old(clock) + 1 && ok == faults(old(clock)).ok
    {
      hide Can, Sub, Graft;
      ok := faults(clock).ok;
      ghost var next := Renamed(l, Now(), src, dst);
      if ok {
        var b := l.BackupsDir();
        if Under(b, src) && Under(b, dst) && |src| == |dst| == |b| + 1 {
          mtimes := mtimes[dst[|b|] := Mtime(mtimes, src[|b|])];
        }
        StaysIn(fs, src, map[], l.picoKubeVarDir);
        StaysIn(Graft(fs, src, map[]), dst, Sub(fs, src), l.picoKubeVarDir);
        fs := Graft(Graft(fs, src, map[]), dst, Sub(fs, src));
      }
      clock := clock + 1;
      assert ok ==> Now() == next;
      Note(if ok then to else mark);
    }

    method Exchange(a: Path, b: Path, ghost to: Mark) returns (ok: bool)
      requires Valid() && !Under(a, l.picoKubeVarDir) && !Under(b, l.picoKubeVarDir)
      requires Can(l, Now(), Exchanged(Now(), a, b).(mark := to)) && Can(l, Now(), Ticked(Now()))
      modifies this
      ensures Valid() && log == old(log) + [Now()]
      ensures Now() == if ok then Exchanged(old(Now()), a, b).(mark := to) else Ticked(old(Now()))
      ensures clock == old(clock) + 1 && ok == faults(old(clock)).ok
    {
      hide Can, Sub, Graft;
      ok := faults(clock).ok;
      if ok {
        StaysIn(fs, a, Sub(fs, b), l.picoKubeVarDir);
        StaysIn(Graft(fs, a, Sub(fs, b)), b, Sub(fs, a), l.picoKubeVarDir);
        fs := Graft(Graft(fs, a, Sub(fs, b)), b, Sub(fs, a));
      }
      clock := clock + 1;
      Note(if ok then to else mark);
    }

    /** A call that only succeeds or fails: a sync, a query, waiting for the cluster. */
    method Attempt() returns (ok: bool)
      requires Valid() && Can(l, Now(), Ticked(Now()))
      modifies this
      ensures Valid() && log == old(log) + [Now()] && Now() == Ticked(old(Now()))
      ensures clock == old(clock) + 1 && ok == faults(old(clock)).ok
    {
      hide Can;
      ok := faults(clock).ok;
      clock := clock + 1;
      Note(mark);
    }
  }
}
