/** internal/backup, the catalogue: listing backups, picking the newest, pruning. */
module Catalog {
  import opened Types
  import opened Trees
  import opened Names
  import opened Protocol
  import opened Invariant
  import opened Layouts
  import opened Effects
  import opened Disks
  import opened Moves
  import opened Restore
  import opened Sorting

  /** backupEntry. */
  datatype Entry = Entry(name: string, mtime: nat)

  predicate NotOlder(a: Entry, b: Entry) {
    a.mtime >= b.mtime
  }

  predicate NewestFirst(es: seq<Entry>) {
    Sorted(es, NotOlder)
  }

  predicate NoRepeats(s: seq<string>) {
    forall i, j | 0 <= i < j < |s| :: s[i] != s[j]
  }

  /** List: the directories that carry a backup's name, in some order. */
  method List(d: Disk) returns (out: seq<string>)
    ensures forall n :: n in out <==> Listable(n) && IsDirectory(Sub(d.fs, d.l.BackupsDir() + [n]))
    ensures NoRepeats(out)
  {
    hide Sub, IsDirectory, Listable;
    var vault := Sub(d.fs, d.l.BackupsDir());
    var entries := Entries(vault);
    out := [];
    while entries != {}
      invariant entries <= Entries(vault)
      invariant forall n :: n in out <==> n in Entries(vault) && n !in entries && Listable(n) && IsDirectory(Sub(vault, [n]))
      invariant NoRepeats(out)
      decreases entries
    {
      var n :| n in entries;
      if IsDirectory(Sub(vault, [n])) && Listable(n) {
        out := out + [n];
      }
      entries := entries - {n};
    }
    forall n ensures n in out <==> Listable(n) && IsDirectory(Sub(d.fs, d.l.BackupsDir() + [n])) {
      SubOfSub(d.fs, d.l.BackupsDir(), [n]);
      DirectoriesAreEntries(vault, n);
    }
  }

  lemma DirectoriesAreEntries(vault: Tree, n: string)
    ensures IsDirectory(Sub(vault, [n])) ==> n in Entries(vault)
  {
    hide Sub;
    if IsDirectory(Sub(vault, [n])) {
      var r :| r in Sub(vault, [n]);
      InSub(vault, [n], r);
      assert ([n] + r)[0] == n;
    }
  }

  /** Under the protocol's invariant that is every backup and nothing else. */
  lemma ListedAreBackups(l: Layout, m: Moment, n: string)
    requires Inv(View(l, m))
    ensures n in View(l, m).store.backups <==> Listable(n) && IsDirectory(Sub(m.fs, l.BackupsDir() + [n]))
    ensures n in View(l, m).store.backups ==> View(l, m).store.backups[n].mtime == Mtime(m.mtimes, n)
  {
    hide Sub, Backups, Live, Exists, Listable, IsDirectory, BackupsOk, BaselineNewest, Quiescent, PcOk, Faithful, Pristine, SkipTaints;
    var v := Sub(m.fs, l.BackupsDir());
    BackupsAt(v, m.mtimes, n);
    SubOfSub(m.fs, l.BackupsDir(), [n]);
    DirectoryExists(Sub(v, [n]));
    if n in View(l, m).store.backups {
      MetaSome(l, m, n);
      HasMetaIsDirectory(Sub(v, [n]));
    }
  }

  lemma DirectoryExists(t: Tree)
    ensures IsDirectory(t) ==> t != map[]
  {}

  lemma MetaSome(l: Layout, m: Moment, n: string)
    requires Inv(View(l, m)) && n in View(l, m).store.backups
    ensures View(l, m).store.backups[n].meta.Some?
  {
    hide Sub, Backups, Live, Exists;
    assert BackupOk(View(l, m), n);
  }

  lemma HasMetaIsDirectory(t: Tree)
    requires RecordIn(Sub(t, META)).Some?
    ensures IsDirectory(t)
  {
    hide Sub;
    InSub(t, META, []);
    assert META + [] == META && META in t && META != [];
  }

  /** sortByModTimeDesc: the entries that still exist, newest first. */
  method SortByModTimeDesc(d: Disk, names: seq<string>) returns (out: seq<Entry>)
    ensures NewestFirst(out)
    ensures forall e: Entry :: e in out <==>
              e.name in names && Exists(d.fs, d.l.BackupsDir() + [e.name]) && e.mtime == Mtime(d.mtimes, e.name)
    ensures NoRepeats(names) ==> forall i, j | 0 <= i < j < |out| :: out[i].name != out[j].name
  {
    hide Sub, Exists;
    var es: seq<Entry> := [];
    for i := 0 to |names|
      invariant forall e: Entry :: e in es <==>
                  e.name in names[..i] && Exists(d.fs, d.l.BackupsDir() + [e.name]) && e.mtime == Mtime(d.mtimes, e.name)
      invariant NoRepeats(names) ==> forall j, k | 0 <= j < k < |es| :: es[j].name != es[k].name
    {
      assert names[..i + 1] == names[..i] + [names[i]];
      if Exists(d.fs, d.l.BackupsDir() + [names[i]]) {
        es := es + [Entry(names[i], Mtime(d.mtimes, names[i]))];
      }
    }
    assert names[..|names|] == names;
    out := Sort(es, NotOlder);
    forall e ensures e in out <==> e in es {
      assert e in multiset(out) <==> e in multiset(es);
    }
    if NoRepeats(names) {
      NamesStayDistinct(es, out);
    }
  }

  /** A reordering of entries with distinct names has distinct names. */
  lemma NamesStayDistinct(es: seq<Entry>, out: seq<Entry>)
    requires multiset(es) == multiset(out)
    requires forall i, j | 0 <= i < j < |es| :: es[i].name != es[j].name
    ensures forall i, j | 0 <= i < j < |out| :: out[i].name != out[j].name
  {
    forall i, j | 0 <= i < j < |out| ensures out[i].name != out[j].name {
      assert out[i] in multiset(out) && out[j] in multiset(out);
      assert out[i] in es && out[j] in es;
      if out[i].name == out[j].name {
        SameNameSameEntry(es, out[i], out[j]);
        CountTwo(out, i, j);
        CountOne(es, out[i]);
      }
    }
  }

  lemma SameNameSameEntry(es: seq<Entry>, a: Entry, b: Entry)
    requires forall i, j | 0 <= i < j < |es| :: es[i].name != es[j].name
    requires a in es && b in es && a.name == b.name
    ensures a == b
  {
    var i :| 0 <= i < |es| && es[i] == a;
    var j :| 0 <= j < |es| && es[j] == b;
  }

  lemma CountTwo(s: seq<Entry>, i: nat, j: nat)
    requires i < j < |s| && s[i] == s[j]
    ensures multiset(s)[s[i]] >= 2
  {
    assert s == s[..j] + [s[j]] + s[j + 1..];
    assert s[i] in s[..j];
    assert multiset(s) == multiset(s[..j]) + multiset{s[j]} + multiset(s[j + 1..]);
  }

  lemma {:induction false} CountOne(s: seq<Entry>, a: Entry)
    requires forall i, j | 0 <= i < j < |s| :: s[i].name != s[j].name
    ensures multiset(s)[a] <= 1
  {
    if s != [] {
      var t := s[..|s| - 1];
      assert s == t + [s[|s| - 1]];
      CountOne(t, a);
      if s[|s| - 1] == a {
        assert a !in t;
      }
    }
  }

  /** LatestForDeployment: the newest backup of the deployment, or "" for none. */
  method LatestForDeployment(d: Disk, deployment: string) returns (name: string)
    requires d.Valid() && Inv(d.State()) && '_' !in deployment
    ensures name == "" ==> !BackedUp(d.State().store, deployment)
    ensures name != "" ==> Newest(d.State().store, name) && DeployOf(name) == deployment
  {
    hide Sub, Backups, Exists, IsDirectory, Inv, Live, DeployOf;
    var names := List(d);
    ghost var s := d.State().store;
    ListIsBackups(d, names);
    var matches := [];
    for i := 0 to |names|
      invariant forall n :: n in matches <==> n in names[..i] && DeployOf(n) == deployment
      invariant NoRepeats(matches)
    {
      ListableHasUnderscore(names[i]);
      PrefixIffCut(names[i], deployment);
      assert names[..i + 1] == names[..i] + [names[i]];
      if HasPrefix(names[i], deployment + "_") {
        matches := matches + [names[i]];
      }
    }
    assert names[..|names|] == names;
    var sorted := SortByModTimeDesc(d, matches);
    assert forall n | n in s.backups && DeployOf(n) == deployment :: Entry(n, Mtime(d.mtimes, n)) in sorted;
    if |sorted| == 0 {
      name := "";
    } else {
      name := sorted[0].name;
      assert sorted[0] in sorted;
      forall m | m in s.backups && DeployOf(m) == deployment ensures s.backups[m].mtime <= s.backups[name].mtime {
        assert Entry(m, Mtime(d.mtimes, m)) in sorted;
      }
    }
  }

  lemma ListableHasUnderscore(n: string)
    ensures Listable(n) ==> '_' in n && n != ""
  {}

  lemma ListIsBackups(d: Disk, names: seq<string>)
    requires d.Valid() && Inv(d.State())
    requires forall n :: n in names <==> Listable(n) && IsDirectory(Sub(d.fs, d.l.BackupsDir() + [n]))
    ensures forall n :: n in names <==> n in d.State().store.backups
    ensures forall n | n in names :: d.State().store.backups[n].mtime == Mtime(d.mtimes, n) && Exists(d.fs, d.l.BackupsDir() + [n])
    ensures forall n | n in names :: Listable(n)
  {
    hide Sub, Backups, Inv, Live, IsDirectory, Listable;
    forall n ensures (n in names <==> n in d.State().store.backups)
              && (n in names ==> d.State().store.backups[n].mtime == Mtime(d.mtimes, n) && Exists(d.fs, d.l.BackupsDir() + [n])) {
      ListedAreBackups(d.l, d.Now(), n);
      DirectoryExists(Sub(d.fs, d.l.BackupsDir() + [n]));
    }
  }

  // ---- Prune ----

  /** What an error-free prune keeps: the newest backup of each known deployment. */
  ghost predicate Keeps(s: Store, known: set<string>, n: string) {
    DeployOf(n) in known && Newest(s, n)
  }

  /** `gone` has been removed from the backups of `s`; nothing else has changed. */
  ghost predicate PrunedBy(s: State, t: State, gone: set<string>) {
    && t == s.(store := s.store.(backups := s.store.backups - gone, clock := t.store.clock)) && Later(s, t)
    && s.pc.Pruning? && gone <= s.store.backups.Keys
    && forall n | n in gone :: !Keeps(s.store, s.pc.listed, n)
  }

  lemma DropCan(l: Layout, m: Moment, n: string)
    requires WellFormed(l) && Listable(n) && m.mark.pc.Pruning? && n in View(l, m).store.backups
    requires DeployOf(n) in m.mark.pc.listed ==> exists k | k in View(l, m).store.backups ::
               DeployOf(k) == DeployOf(n) && View(l, m).store.backups[n].mtime < View(l, m).store.backups[k].mtime
    ensures Can(l, m, After(l, m, l.BackupsDir() + [n], map[]).(mark := m.mark))
    ensures View(l, After(l, m, l.BackupsDir() + [n], map[])).store ==
            View(l, m).store.(backups := View(l, m).store.backups - {n}, clock := m.clock + 1)
  {
    hide Sub, Graft, Backups, Exists, Live, DeployOf, Listable;
    var p := l.BackupsDir() + [n];
    UnderSelf(l.BackupsDir(), [n]);
    EntryStore(l, m, n, map[], Touched(l, m.mtimes, p, m.clock));
    var m' := After(l, m, p, map[]).(mark := m.mark);
    assert m' == After(l, m, p, map[]);
    assert PruneOne(View(l, m), View(l, m'));
  }

  /** `os.RemoveAll` of one backup that is unknown or has a newer sibling. */
  method RemoveBackup(d: Disk, n: string, ghost top: string, ghost s: State, ghost gone: set<string>) returns (ok: bool)
    requires d.Valid() && Inv(s) && PrunedBy(s, d.State(), gone) && Listable(n)
    requires n in s.store.backups && n !in gone && !Keeps(s.store, s.pc.listed, n)
    requires DeployOf(n) in s.pc.listed ==> DeployOf(top) == DeployOf(n) && Newest(s.store, top)
    modifies d
    ensures d.Valid() && old(d.log) <= d.log
    ensures PrunedBy(s, d.State(), if ok then gone + {n} else gone)
    ensures old(d.clock) <= d.clock && (!ok ==> Faulty(d.faults, old(d.clock), d.clock))
  {
    hide Can, Sub, Graft, StoreOf, Exists, DeployOf, Listable, PrunedBy, Inv, Newest;
    ghost var m := d.Now();
    MayDrop(s, View(d.l, m), gone, n, top);
    DropCan(d.l, m, n);
    TickCan(d.l, m);
    ViewTicked(d.l, m, Ticked(m));
    NotInVar(d.l, n);
    ok := d.Remove(d.l.BackupsDir() + [n], d.mark);
    if ok {
      OneMoreGone(s, View(d.l, m), d.State(), gone, n);
    } else {
      PrunedTicks(s, View(d.l, m), d.State(), gone);
    }
  }

  lemma NotInVar(l: Layout, n: string)
    ensures !Under(l.BackupsDir() + [n], l.picoKubeVarDir)
  {}

  lemma MayDrop(s: State, t: State, gone: set<string>, n: string, top: string)
    requires Inv(s) && PrunedBy(s, t, gone) && n in s.store.backups && n !in gone && !Keeps(s.store, s.pc.listed, n)
    requires DeployOf(n) in s.pc.listed ==> DeployOf(top) == DeployOf(n) && Newest(s.store, top)
    ensures t.pc == s.pc && t.pc.Pruning? && n in t.store.backups
    ensures DeployOf(n) in s.pc.listed ==> exists k | k in t.store.backups ::
              DeployOf(k) == DeployOf(n) && t.store.backups[n].mtime < t.store.backups[k].mtime
  {
    hide DeployOf, Inv;
    if DeployOf(n) in s.pc.listed {
      NewestIsNewer(s, n, top);
      assert Keeps(s.store, s.pc.listed, top);
      assert top in t.store.backups;
    }
  }

  lemma OneMoreGone(s: State, t: State, u: State, gone: set<string>, n: string)
    requires PrunedBy(s, t, gone) && n in s.store.backups && !Keeps(s.store, s.pc.listed, n) && Later(t, u)
    requires u == t.(store := t.store.(backups := t.store.backups - {n}, clock := u.store.clock))
    ensures PrunedBy(s, u, gone + {n})
  {
    hide Keeps;
    assert s.store.backups - gone - {n} == s.store.backups - (gone + {n});
  }

  lemma NewestIsNewer(s: State, n: string, k: string)
    requires Inv(s) && n in s.store.backups && Newest(s.store, k) && DeployOf(k) == DeployOf(n) && !Newest(s.store, n)
    ensures s.store.backups[n].mtime < s.store.backups[k].mtime
  {
    assert n != k;
    assert s.store.backups[n].mtime != s.store.backups[k].mtime;
  }

  /** What is left of `s` is still on disk, dated as before. */
  lemma LeftOnDisk(d: Disk, s: State, gone: set<string>)
    requires d.Valid() && PrunedBy(s, d.State(), gone)
    ensures forall n | n in s.store.backups && n !in gone ::
              s.store.backups[n].mtime == Mtime(d.mtimes, n) && Exists(d.fs, d.l.BackupsDir() + [n])
  {
    hide Sub, Backups, Live, Listable, Keeps;
    forall n | n in s.store.backups && n !in gone
      ensures s.store.backups[n].mtime == Mtime(d.mtimes, n) && Exists(d.fs, d.l.BackupsDir() + [n]) {
      assert n in d.State().store.backups;
      BackupOnDisk(d.l, d.Now(), n);
      SubOfSub(d.fs, d.l.BackupsDir(), [n]);
    }
  }

  lemma LoneIsNewest(s: State, group: seq<string>, deploy: string)
    requires |group| <= 1 && forall n :: n in group <==> n in s.store.backups && DeployOf(n) == deploy
    ensures forall n | n in s.store.backups && DeployOf(n) == deploy :: Newest(s.store, n)
  {
    hide DeployOf;
    forall n | n in s.store.backups && DeployOf(n) == deploy ensures Newest(s.store, n) {
      forall m | m in s.store.backups && DeployOf(m) == deploy ensures m == n {
        assert m in group && n in group;
      }
    }
  }

  /** The head of the sorted group is its newest backup, and nothing else in it is. */
  lemma FirstIsNewest(s: State, group: seq<string>, deploy: string, sorted: seq<Entry>)
    requires Inv(s) && |group| > 0 && NewestFirst(sorted)
    requires forall n :: n in group <==> n in s.store.backups && DeployOf(n) == deploy
    requires forall e | e in sorted :: e.name in group && e.mtime == s.store.backups[e.name].mtime
    requires forall n | n in group :: Entry(n, s.store.backups[n].mtime) in sorted
    requires forall i, j | 0 <= i < j < |sorted| :: sorted[i].name != sorted[j].name
    ensures |sorted| > 0 && Newest(s.store, sorted[0].name)
    ensures forall j | 1 <= j < |sorted| :: !Newest(s.store, sorted[j].name)
  {
    hide DeployOf, HostOk, BaselineNewest, Quiescent, PcOk, Faithful, Pristine, SkipTaints, BackupOk;
    assert group[0] in group;
    var top := sorted[0].name;
    assert sorted[0] in sorted;
    forall m | m in s.store.backups && DeployOf(m) == deploy ensures s.store.backups[m].mtime <= s.store.backups[top].mtime {
      assert m in group;
    }
    forall j | 1 <= j < |sorted| ensures !Newest(s.store, sorted[j].name) {
      assert sorted[j] in sorted;
      assert s.store.backups[sorted[j].name].mtime != s.store.backups[top].mtime;
    }
  }

  lemma PrunedTicks(s: State, t: State, t': State, gone: set<string>)
    requires PrunedBy(s, t, gone) && t' == t.(store := t.store.(clock := t'.store.clock)) && t.store.clock <= t'.store.clock
    ensures PrunedBy(s, t', gone)
  {}

  /** The backups of one deployment beyond the newest. */
  method PruneGroup(d: Disk, group: seq<string>, deploy: string, ghost s: State, ghost gone: set<string>)
    returns (ok: bool, ghost gone': set<string>)
    requires d.Valid() && Inv(s) && PrunedBy(s, d.State(), gone) && deploy in s.pc.listed
    requires NoRepeats(group) && forall n | n in group :: Listable(n)
    requires forall n :: n in group <==> n in s.store.backups && DeployOf(n) == deploy
    requires forall n | n in gone :: DeployOf(n) != deploy
    modifies d
    ensures d.Valid() && old(d.log) <= d.log && PrunedBy(s, d.State(), gone')
    ensures gone <= gone' && forall n | n in gone' && n !in gone :: DeployOf(n) == deploy
    ensures ok ==> forall n | n in s.store.backups && DeployOf(n) == deploy && !Newest(s.store, n) :: n in gone'
    ensures old(d.clock) <= d.clock && (!ok ==> Faulty(d.faults, old(d.clock), d.clock))
  {
    hide Can, Sub, Graft, Backups, Exists, Live, DeployOf, Listable, IsDirectory, PrunedBy, Inv, NewestFirst, Newest;
    ok, gone' := true, gone;
    if |group| <= 1 {
      LoneIsNewest(s, group, deploy);
      return;
    }
    TickCan(d.l, d.Now());
    ghost var t := d.State();
    ViewTicked(d.l, d.Now(), Ticked(d.Now()));
    ok := d.Attempt();
    PrunedTicks(s, t, d.State(), gone);
    if !ok { return; }
    LeftOnDisk(d, s, gone);
    var sorted := SortByModTimeDesc(d, group);
    FirstIsNewest(s, group, deploy, sorted);
    var rest := NamesOf(sorted[1..]);
    RestIsSurplus(s, gone, group, deploy, sorted);
    ok, gone' := RemoveRest(d, rest, sorted[0].name, s, gone);
    if ok {
      AllButNewest(s, group, deploy, sorted, gone');
    }
  }

  function NamesOf(es: seq<Entry>): (ns: seq<string>)
    ensures |ns| == |es| && forall i | 0 <= i < |es| :: ns[i] == es[i].name
  {
    seq(|es|, i requires 0 <= i < |es| => es[i].name)
  }

  lemma RestIsSurplus(s: State, gone: set<string>, group: seq<string>, deploy: string, sorted: seq<Entry>)
    requires s.pc.Pruning? && deploy in s.pc.listed && |sorted| > 0
    requires forall n :: n in group <==> n in s.store.backups && DeployOf(n) == deploy
    requires forall n | n in group :: Listable(n) && n !in gone
    requires forall e | e in sorted :: e.name in group
    requires forall i, j | 0 <= i < j < |sorted| :: sorted[i].name != sorted[j].name
    requires Newest(s.store, sorted[0].name) && forall j | 1 <= j < |sorted| :: !Newest(s.store, sorted[j].name)
    ensures Surplus(s, gone, sorted[0].name, NamesOf(sorted[1..]))
    ensures forall n | n in NamesOf(sorted[1..]) :: DeployOf(n) == deploy
  {
    hide DeployOf, Listable, Newest;
    assert sorted[0] in sorted;
    var rest := NamesOf(sorted[1..]);
    forall i | 0 <= i < |rest| ensures rest[i] in group && !Newest(s.store, rest[i]) {
      assert sorted[i + 1] in sorted;
    }
  }

  lemma AllButNewest(s: State, group: seq<string>, deploy: string, sorted: seq<Entry>, gone: set<string>)
    requires |sorted| > 0 && Newest(s.store, sorted[0].name)
    requires forall n :: n in group <==> n in s.store.backups && DeployOf(n) == deploy
    requires forall n | n in group :: exists e | e in sorted :: e.name == n
    requires forall n | n in NamesOf(sorted[1..]) :: n in gone
    ensures forall n | n in s.store.backups && DeployOf(n) == deploy && !Newest(s.store, n) :: n in gone
  {
    hide DeployOf, Newest;
    forall n | n in s.store.backups && DeployOf(n) == deploy && !Newest(s.store, n) ensures n in gone {
      assert n in group;
      var e :| e in sorted && e.name == n;
      var i :| 0 <= i < |sorted| && sorted[i] == e;
      assert i > 0;
      assert NamesOf(sorted[1..])[i - 1] == n;
    }
  }

  /** What the loop over `sorted[1:]` may remove: other backups of `top`'s deployment. */
  ghost predicate Surplus(s: State, gone: set<string>, top: string, rest: seq<string>) {
    && s.pc.Pruning? && DeployOf(top) in s.pc.listed && Newest(s.store, top) && NoRepeats(rest)
    && forall n | n in rest :: n in s.store.backups && DeployOf(n) == DeployOf(top) && Listable(n) && n !in gone && !Newest(s.store, n)
  }

  /** Removes the entries behind the newest, one by one. */
  method RemoveRest(d: Disk, rest: seq<string>, ghost top: string, ghost s: State, ghost gone: set<string>)
    returns (ok: bool, ghost gone': set<string>)
    requires d.Valid() && Inv(s) && PrunedBy(s, d.State(), gone) && Surplus(s, gone, top, rest)
    modifies d
    ensures d.Valid() && old(d.log) <= d.log && PrunedBy(s, d.State(), gone')
    ensures gone <= gone' && forall n | n in gone' && n !in gone :: n in rest
    ensures ok ==> forall n | n in rest :: n in gone'
    ensures old(d.clock) <= d.clock && (!ok ==> Faulty(d.faults, old(d.clock), d.clock))
  {
    hide Can, Sub, Graft, Backups, Exists, Live, DeployOf, Listable, PrunedBy, Inv, Surplus, Next, View;
    ok, gone' := true, gone;
    var j := 0;
    while ok && j < |rest|
      invariant 0 <= j <= |rest| && d.Valid() && old(d.log) <= d.log && PrunedBy(s, d.State(), gone')
      invariant gone' == gone + SetOf(rest[..j])
      invariant old(d.clock) <= d.clock && (!ok ==> Faulty(d.faults, old(d.clock), d.clock))
      decreases |rest| - j, ok
    {
      SurplusAt(s, gone, top, rest, j);
      ok := RemoveBackup(d, rest[j], top, s, gone');
      if ok {
        assert rest[..j + 1] == rest[..j] + [rest[j]];
        assert gone' + {rest[j]} == gone + SetOf(rest[..j + 1]);
        gone' := gone' + {rest[j]};
        j := j + 1;
      }
    }
    assert rest[..|rest|] == rest;
  }

  lemma SurplusAt(s: State, gone: set<string>, top: string, rest: seq<string>, j: nat)
    requires Surplus(s, gone, top, rest) && j < |rest|
    ensures var n := rest[j];
            && s.pc.Pruning? && n in s.store.backups && DeployOf(n) == DeployOf(top) && Listable(n) && Newest(s.store, top)
            && n !in gone && n !in rest[..j] && !Keeps(s.store, s.pc.listed, n)
  {
    assert rest[j] in rest;
  }

  /** Prune. An error-free prune leaves exactly the newest backup of each known
      deployment that had any, in whatever order the directory and the deployments
      are walked; an early return has removed nothing it would have kept. */
  method Prune(d: Disk, known: set<string>) returns (ok: bool, ghost gone: set<string>)
    requires d.Valid() && Inv(d.State()) && d.mark.pc == Pruning(known)
    modifies d
    ensures d.Valid() && old(d.log) <= d.log
    ensures PrunedBy(old(d.State()), d.State(), gone)
    ensures ok ==> forall n | n in old(d.State().store.backups) ::
              n in d.State().store.backups <==> Keeps(old(d.State().store), known, n)
    ensures old(d.clock) <= d.clock && (!ok ==> Faulty(d.faults, old(d.clock), d.clock))
  {
    hide Can, Sub, Graft, StoreOf, Exists, DeployOf, Listable, IsDirectory, PrunedBy, Inv, Newest, Keeps, Steps, WellFormed;
    ghost var s := d.State();
    gone := {};
    StartsPruned(s);
    TickCan(d.l, d.Now());
    ViewTicked(d.l, d.Now(), Ticked(d.Now()));
    ok := d.Attempt();
    PrunedTicks(s, s, d.State(), gone);
    if !ok { return; }
    InvTicks(s, d.State());
    var names := List(d);
    ListIsBackups(d, names);
    var byDeploy: map<string, seq<string>>;
    ok, byDeploy, gone := DropUnknown(d, known, names, s);
    if !ok { return; }
    var keys := byDeploy.Keys;
    while keys != {}
      invariant keys <= byDeploy.Keys && d.Valid() && old(d.log) <= d.log && PrunedBy(s, d.State(), gone)
      invariant forall n | n in gone :: DeployOf(n) !in keys
      invariant forall n | n in s.store.backups && DeployOf(n) !in known :: n in gone
      invariant ok && forall n | n in s.store.backups && DeployOf(n) in known && DeployOf(n) !in keys && !Newest(s.store, n) :: n in gone
      invariant old(d.clock) <= d.clock
      decreases keys
    {
      var deploy :| deploy in keys;
      ok, gone := PruneGroup(d, byDeploy[deploy], deploy, s, gone);
      if !ok { return; }
      keys := keys - {deploy};
    }
    GoneExactly(s, d.State(), known, gone);
  }

  lemma StartsPruned(s: State)
    requires s.pc.Pruning?
    ensures PrunedBy(s, s, {})
  {
    assert s.store.backups - {} == s.store.backups;
  }

  lemma InvTicks(s: State, t: State)
    requires Inv(s) && Tick(s, t)
    ensures Inv(t)
  {
    NextKeepsInv(s, t);
  }

  lemma GoneExactly(s: State, t: State, known: set<string>, gone: set<string>)
    requires PrunedBy(s, t, gone) && s.pc == Pruning(known)
    requires forall n | n in s.store.backups && (DeployOf(n) !in known || !Newest(s.store, n)) :: n in gone
    ensures forall n | n in s.store.backups :: n in t.store.backups <==> Keeps(s.store, known, n)
  {
    hide DeployOf, Newest;
  }

  /** The first pass: unknown deployments go, the rest are grouped. */
  method DropUnknown(d: Disk, known: set<string>, names: seq<string>, ghost s: State)
    returns (ok: bool, byDeploy: map<string, seq<string>>, ghost gone: set<string>)
    requires d.Valid() && Inv(s) && PrunedBy(s, d.State(), {}) && s.pc == Pruning(known)
    requires NoRepeats(names) && forall n :: n in names <==> n in s.store.backups
    requires forall n | n in names :: Listable(n)
    modifies d
    ensures d.Valid() && old(d.log) <= d.log && PrunedBy(s, d.State(), gone)
    ensures forall n | n in gone :: DeployOf(n) !in known
    ensures ok ==> forall n | n in s.store.backups && DeployOf(n) !in known :: n in gone
    ensures ok ==> byDeploy.Keys <= known && forall n | n in s.store.backups && DeployOf(n) in known :: DeployOf(n) in byDeploy
    ensures ok ==> forall k | k in byDeploy :: NoRepeats(byDeploy[k]) && (forall n | n in byDeploy[k] :: Listable(n))
                     && forall n :: n in byDeploy[k] <==> n in s.store.backups && DeployOf(n) == k
    ensures old(d.clock) <= d.clock && (!ok ==> Faulty(d.faults, old(d.clock), d.clock))
  {
    hide Can, Sub, Graft, StoreOf, Exists, DeployOf, Listable, IsDirectory, PrunedBy, Inv, Newest, Steps, WellFormed, Keeps;
    ok, byDeploy, gone := true, map[], {};
    var i := 0;
    while ok && i < |names|
      invariant 0 <= i <= |names| && d.Valid() && old(d.log) <= d.log && PrunedBy(s, d.State(), gone)
      invariant forall n :: n in gone <==> n in names[..i] && DeployOf(n) !in known
      invariant byDeploy.Keys <= known && forall n | n in names[..i] && DeployOf(n) in known :: DeployOf(n) in byDeploy
      invariant forall k | k in byDeploy :: NoRepeats(byDeploy[k])
                  && forall n :: n in byDeploy[k] <==> n in names[..i] && DeployOf(n) == k
      invariant old(d.clock) <= d.clock && (!ok ==> Faulty(d.faults, old(d.clock), d.clock))
      decreases |names| - i, ok
    {
      var n := names[i];
      var deploy := DeployOf(n);
      assert names[..i + 1] == names[..i] + [n];
      assert n !in names[..i];
      if deploy !in known {
        KeepsIsKnown(s.store, known, n);
        ok := RemoveBackup(d, n, n, s, gone);
        if ok {
          gone := gone + {n};
          i := i + 1;
        }
      } else {
        byDeploy := byDeploy[deploy := (if deploy in byDeploy then byDeploy[deploy] else []) + [n]];
        i := i + 1;
      }
    }
    assert names[..|names|] == names;
  }

  lemma KeepsIsKnown(s: Store, known: set<string>, n: string)
    ensures Keeps(s, known, n) ==> DeployOf(n) in known
  {}

  /** What an error-free prune means: one backup is left for each known deployment
      that had any, none for the others, and the pick for a restore is as before. */
  lemma PruneLeavesTheNewest(s: State, t: State, known: set<string>, gone: set<string>)
    requires Inv(s) && PrunedBy(s, t, gone) && s.pc == Pruning(known)
    requires forall n | n in s.store.backups :: n in t.store.backups <==> Keeps(s.store, known, n)
    ensures forall n | DeployOf(n) in known :: Newest(t.store, n) <==> Newest(s.store, n)
    ensures forall n | n in t.store.backups :: DeployOf(n) in known && t.store.backups[n] == s.store.backups[n]
    ensures forall n, m | n in t.store.backups && m in t.store.backups && DeployOf(n) == DeployOf(m) :: n == m
    ensures forall d | d in known && BackedUp(s.store, d) :: BackedUp(t.store, d)
  {
    hide DeployOf, HostOk, BaselineNewest, Quiescent, PcOk, Faithful, Pristine, SkipTaints, BackupOk;
    forall n, m | n in t.store.backups && m in t.store.backups && DeployOf(n) == DeployOf(m) ensures n == m {
      assert Keeps(s.store, known, n) && Keeps(s.store, known, m);
      assert s.store.backups[n].mtime == s.store.backups[m].mtime;
    }
    forall d | d in known && BackedUp(s.store, d) ensures BackedUp(t.store, d) {
      var n := NewestOf(s.store, s.store.backups.Keys, d);
      assert Keeps(s.store, known, n);
      assert n in t.store.backups;
    }
  }

  /** A deployment with a backup has a newest one. */
  lemma {:induction false} NewestOf(s: Store, names: set<string>, d: string) returns (n: string)
    requires names <= s.backups.Keys && exists k :: k in names && DeployOf(k) == d
    ensures n in names && DeployOf(n) == d && forall m | m in names && DeployOf(m) == d :: s.backups[m].mtime <= s.backups[n].mtime
    decreases names
  {
    hide DeployOf;
    var k :| k in names && DeployOf(k) == d;
    var rest := names - {k};
    if r :| r in rest && DeployOf(r) == d {
      n := NewestOf(s, rest, d);
      if s.backups[n].mtime < s.backups[k].mtime {
        n := k;
      }
    } else {
      n := k;
    }
  }
}
