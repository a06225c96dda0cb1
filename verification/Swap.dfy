/** internal/atomic: replacing a live directory in one step. */
module Swap {
  import opened Types
  import opened Trees
  import opened Protocol
  import opened Layouts
  import opened Effects
  import opened Disks
  import opened Moves

  /** The swap has happened, whichever rename did it; the rest is the clock. */
  ghost predicate Swapped(was: Moment, stage: Path, live: Path, to: Mark, now: Moment) {
    && now == Exchanged(was, stage, live).(mark := to, clock := now.clock)
    && was.clock < now.clock
  }

  /** On success `live` holds what was at `stage` and `stage` what was at `live`. An
      error leaves both as they were, or, when only the final sync failed, swapped;
      nothing in between is ever on disk. */
  method SwapDir(d: Disk, stage: Path, live: Path, ghost to: Mark) returns (ok: bool)
    requires d.Valid() && Can(d.l, d.Now(), Exchanged(d.Now(), stage, live).(mark := to))
    requires !Under(d.l.BackupsDir(), live) && !Under(stage, d.l.picoKubeVarDir) && !Under(live, d.l.picoKubeVarDir)
    modifies d
    ensures d.Valid() && old(d.log) <= d.log
    ensures ok ==> Swapped(old(d.Now()), stage, live, to, d.Now())
    ensures !ok ==> Swapped(old(d.Now()), stage, live, to, d.Now()) || d.Now() == Ticked(old(d.Now()))
    ensures forall k | |old(d.log)| <= k < |d.log| ::
              d.log[k] == Ticked(old(d.Now())) || Swapped(old(d.Now()), stage, live, to, d.log[k])
    ensures old(d.clock) <= d.clock && (!ok ==> Faulty(d.faults, old(d.clock), d.clock))
  {
    hide Can, Sub, Graft, View;
    ghost var was := d.Now();
    TickCan(d.l, was);
    if !Exists(d.fs, live) {
      assert Renamed(d.l, was, stage, live) == Exchanged(was, stage, live);
      ok := d.Rename(stage, live, to);
    } else {
      ok := d.Exchange(stage, live, to);
    }
    if ok {
      TickCan(d.l, d.Now());
      ok := d.Attempt();
    }
  }
}
