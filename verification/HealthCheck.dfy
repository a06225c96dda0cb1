/** internal/healthcheck.waitAllReady: one goroutine per check, a channel as wide as
    the list of checks, a cancellable context, and the loop that collects. Any
    interleaving of the goroutines is a sequence of the actions below. */
module HealthCheck {

  /** Where a check's goroutine stands: inside the probe, about to send its name,
      in the select between the context and the timer, or finished. */
  datatype Goroutine = Probing | Sending | Waiting | Sent | Stopped

  /** The loop that collects; `err` is what `waitAllReady` returned. */
  datatype Collector = Collecting(remaining: nat) | Returned(err: bool)

  /** `passed` is the channel, `done` the derived context, `callerDone` the one it
      derives from. History: `ready[i]`, check `i` has returned true; `received`, how
      many names the collector took. */
  datatype State = State(
    goroutines: seq<Goroutine>, passed: seq<nat>, done: bool, callerDone: bool, collector: Collector,
    ready: seq<bool>, received: nat)

  function Start(n: nat): State {
    State(seq(n, _ => Probing), [], false, false, Collecting(n), seq(n, _ => false), 0)
  }

  datatype Action =
    | Probe(i: nat, ok: bool)
    | Send(i: nat)
    | TimerFires(i: nat)
    | SeeDone(i: nat)
    | Receive
    | GiveUp
    | Finish
    | CallerEnds

  predicate OfGoroutine(a: Action) {
    a.Probe? || a.Send? || a.TimerFires? || a.SeeDone?
  }

  predicate At(s: State, i: nat, g: Goroutine) {
    i < |s.goroutines| && s.goroutines[i] == g
  }

  /** A send waits for room in the channel; the collector's select may take either
      ready branch. */
  predicate Enabled(s: State, a: Action) {
    match a
    case Probe(i, _) => At(s, i, Probing) && i < |s.ready|
    case Send(i) => At(s, i, Sending) && |s.passed| < |s.goroutines|
    case TimerFires(i) => At(s, i, Waiting)
    case SeeDone(i) => At(s, i, Waiting) && s.done
    case Receive => s.collector.Collecting? && s.collector.remaining > 0 && |s.passed| > 0
    case GiveUp => s.collector.Collecting? && s.collector.remaining > 0 && s.done
    case Finish => s.collector.Collecting? && s.collector.remaining == 0
    case CallerEnds => true
  }

  /** A goroutine that enters its select after the context is done leaves at once:
      the timer it has just made is not ready. Returning cancels the context. */
  function Do(s: State, a: Action): State
    requires Enabled(s, a)
  {
    match a
    case Probe(i, ok) =>
      s.(goroutines := s.goroutines[i := if ok then Sending else if s.done then Stopped else Waiting],
         ready := s.ready[i := s.ready[i] || ok])
    case Send(i) => s.(goroutines := s.goroutines[i := Sent], passed := s.passed + [i])
    case TimerFires(i) => s.(goroutines := s.goroutines[i := Probing])
    case SeeDone(i) => s.(goroutines := s.goroutines[i := Stopped])
    case Receive => s.(passed := s.passed[1..], collector := Collecting(s.collector.remaining - 1), received := s.received + 1)
    case GiveUp => s.(collector := Returned(true), done := true)
    case Finish => s.(collector := Returned(false), done := true)
    case CallerEnds => s.(callerDone := true, done := true)
  }

  ghost predicate Continues(s: State, run: seq<Action>, t: State)
    decreases |run|
  {
    if run == [] then s == t else Enabled(s, run[0]) && Continues(Do(s, run[0]), run[1..], t)
  }

  /** `s` is reached from the start with `n` checks by the actions of `run`. */
  ghost predicate Reaches(n: nat, run: seq<Action>, s: State) {
    Continues(Start(n), run, s)
  }

  // ---- the invariant ----

  function Count(gs: seq<Goroutine>, g: Goroutine): (c: nat)
    ensures c <= |gs|
  {
    if gs == [] then 0 else Count(gs[..|gs| - 1], g) + (if gs[|gs| - 1] == g then 1 else 0)
  }

  lemma {:induction false} CountUpdate(gs: seq<Goroutine>, i: nat, x: Goroutine, g: Goroutine)
    requires i < |gs|
    ensures Count(gs[i := x], g) == Count(gs, g) - (if gs[i] == g then 1 else 0) + (if x == g then 1 else 0)
  {
    var n := |gs| - 1;
    if i == n {
      assert gs[i := x][..n] == gs[..n];
    } else {
      assert gs[i := x][..n] == gs[..n][i := x];
      CountUpdate(gs[..n], i, x, g);
    }
  }

  lemma {:induction false} CountAll(gs: seq<Goroutine>, g: Goroutine)
    ensures Count(gs, g) == |gs| <==> forall i | 0 <= i < |gs| :: gs[i] == g
  {
    if gs != [] {
      CountAll(gs[..|gs| - 1], g);
      assert forall i | 0 <= i < |gs| - 1 :: gs[..|gs| - 1][i] == gs[i];
    }
  }

  lemma CountSomeOther(gs: seq<Goroutine>, i: nat, g: Goroutine)
    requires i < |gs| && gs[i] != g
    ensures Count(gs, g) < |gs|
  {
    CountAll(gs, g);
  }

  ghost predicate Inv(n: nat, s: State) {
    && |s.goroutines| == |s.ready| == n
    // Every name sent is in the channel or has been received.
    && s.received + |s.passed| == Count(s.goroutines, Sent)
    && (s.collector.Collecting? ==> s.received + s.collector.remaining == n)
    && (s.collector.Returned? ==> s.done && (!s.collector.err ==> s.received == n) && (s.collector.err ==> s.callerDone))
    && (s.collector.Collecting? && s.done ==> s.callerDone)
    && (forall i | 0 <= i < n && (s.goroutines[i].Sending? || s.goroutines[i].Sent?) :: s.ready[i])
  }

  lemma {:induction false} StartCounts(n: nat)
    ensures Count(seq(n, _ => Probing), Sent) == 0
  {
    if n > 0 {
      StartCounts(n - 1);
      assert seq(n, _ => Probing)[..n - 1] == seq(n - 1, _ => Probing);
    }
  }

  lemma GoroutineKeepsInv(n: nat, s: State, a: Action)
    requires Inv(n, s) && Enabled(s, a) && OfGoroutine(a)
    ensures Inv(n, Do(s, a))
  {
    hide Count;
    CountUpdate(s.goroutines, a.i, Do(s, a).goroutines[a.i], Sent);
  }

  lemma CollectorKeepsInv(n: nat, s: State, a: Action)
    requires Inv(n, s) && Enabled(s, a) && !OfGoroutine(a)
    ensures Inv(n, Do(s, a))
  {
    hide Count;
  }

  lemma StepKeepsInv(n: nat, s: State, a: Action)
    requires Inv(n, s) && Enabled(s, a)
    ensures Inv(n, Do(s, a))
  {
    if OfGoroutine(a) {
      GoroutineKeepsInv(n, s, a);
    } else {
      CollectorKeepsInv(n, s, a);
    }
  }

  lemma {:induction false} ContinuesInv(n: nat, s: State, run: seq<Action>, t: State)
    requires Inv(n, s) && Continues(s, run, t)
    ensures Inv(n, t)
    decreases |run|
  {
    if run != [] {
      StepKeepsInv(n, s, run[0]);
      ContinuesInv(n, Do(s, run[0]), run[1..], t);
    }
  }

  lemma ReachableInv(n: nat, run: seq<Action>, s: State)
    requires Reaches(n, run, s)
    ensures Inv(n, s)
  {
    StartCounts(n);
    ContinuesInv(n, Start(n), run, s);
  }

  // ---- what waitAllReady promises ----

  /** For any number of checks and any interleaving: no error is returned only when
      every check has returned true at least once. */
  lemma NilMeansAllReady(n: nat, run: seq<Action>, s: State)
    requires Reaches(n, run, s) && s.collector == Returned(false)
    ensures |s.ready| == n && forall i | 0 <= i < n :: s.ready[i]
  {
    ReachableInv(n, run, s);
    CountAll(s.goroutines, Sent);
  }

  /** An error is returned only when the caller's context has ended. */
  lemma ErrorMeansCallerEnded(n: nat, run: seq<Action>, s: State)
    requires Reaches(n, run, s) && s.collector == Returned(true)
    ensures s.callerDone
  {
    ReachableInv(n, run, s);
  }

  /** No sender ever blocks, before the return or after it: what is in the channel and
      what may still be sent never exceed its capacity. */
  lemma NoSenderBlocks(n: nat, run: seq<Action>, s: State)
    requires Reaches(n, run, s)
    ensures |s.passed| + (n - Count(s.goroutines, Sent)) <= n
    ensures forall i | At(s, i, Sending) :: Enabled(s, Send(i))
  {
    ReachableInv(n, run, s);
    forall i | At(s, i, Sending) ensures Enabled(s, Send(i)) {
      CountSomeOther(s.goroutines, i, Sent);
    }
  }

  /** Received plus remaining is always the number of checks. */
  lemma NothingLost(n: nat, run: seq<Action>, s: State)
    requires Reaches(n, run, s) && s.collector.Collecting?
    ensures s.received + s.collector.remaining == n
    ensures s.collector.remaining == 0 ==> forall i | 0 <= i < |s.ready| :: s.ready[i]
  {
    ReachableInv(n, run, s);
    CountAll(s.goroutines, Sent);
  }

  // ---- nobody is left behind ----

  function Weight(g: Goroutine): nat {
    match g
    case Waiting => 3
    case Probing => 2
    case Sending => 1
    case _ => 0
  }

  /** How much the goroutines can still do once the context is done. */
  function Left(gs: seq<Goroutine>): nat {
    if gs == [] then 0 else Left(gs[..|gs| - 1]) + Weight(gs[|gs| - 1])
  }

  lemma {:induction false} LeftUpdate(gs: seq<Goroutine>, i: nat, x: Goroutine)
    requires i < |gs|
    ensures Left(gs[i := x]) == Left(gs) - Weight(gs[i]) + Weight(x)
  {
    var n := |gs| - 1;
    if i == n {
      assert gs[i := x][..n] == gs[..n];
    } else {
      assert gs[i := x][..n] == gs[..n][i := x];
      LeftUpdate(gs[..n], i, x);
    }
  }

  lemma {:induction false} LeftBound(gs: seq<Goroutine>)
    ensures Left(gs) <= 3 * |gs|
    ensures Left(gs) == 0 <==> forall i | 0 <= i < |gs| :: gs[i].Sent? || gs[i].Stopped?
  {
    if gs != [] {
      LeftBound(gs[..|gs| - 1]);
      assert forall i | 0 <= i < |gs| - 1 :: gs[..|gs| - 1][i] == gs[i];
    }
  }

  /** After the return every action of a goroutine uses something up, and nothing else
      that happens adds to it. */
  lemma ActionsUseUp(s: State, a: Action)
    requires s.done && Enabled(s, a)
    ensures Do(s, a).done && (OfGoroutine(a) ==> Left(Do(s, a).goroutines) < Left(s.goroutines))
    ensures !OfGoroutine(a) ==> Do(s, a).goroutines == s.goroutines
  {
    match a
    case Probe(i, ok) => LeftUpdate(s.goroutines, i, Do(s, a).goroutines[i]);
    case Send(i) => LeftUpdate(s.goroutines, i, Sent);
    case TimerFires(i) => LeftUpdate(s.goroutines, i, Probing);
    case SeeDone(i) => LeftUpdate(s.goroutines, i, Stopped);
    case _ =>
  }

  function GoroutineActions(run: seq<Action>): nat {
    if run == [] then 0 else (if OfGoroutine(run[0]) then 1 else 0) + GoroutineActions(run[1..])
  }

  /** Once the context is done the goroutines together take at most three actions per
      check, and whoever has not finished has an action to take, given that its probe
      returns: after `waitAllReady` returns every goroutine exits. */
  lemma {:induction false} GoroutinesDrain(n: nat, s: State, run: seq<Action>, t: State)
    requires Inv(n, s) && s.done && Continues(s, run, t)
    ensures Inv(n, t) && t.done && GoroutineActions(run) + Left(t.goroutines) <= Left(s.goroutines) <= 3 * n
    decreases |run|
  {
    LeftBound(s.goroutines);
    if run != [] {
      StepKeepsInv(n, s, run[0]);
      ActionsUseUp(s, run[0]);
      GoroutinesDrain(n, Do(s, run[0]), run[1..], t);
    }
  }

  lemma UnfinishedCanAct(n: nat, run: seq<Action>, s: State, i: nat, ok: bool)
    requires Reaches(n, run, s) && s.collector.Returned? && i < n && i < |s.goroutines|
    requires !s.goroutines[i].Sent? && !s.goroutines[i].Stopped?
    ensures Enabled(s, Probe(i, ok)) || Enabled(s, Send(i)) || Enabled(s, SeeDone(i))
  {
    ReachableInv(n, run, s);
    NoSenderBlocks(n, run, s);
  }

  /** When nothing of a goroutine is left to do, all have exited. */
  lemma DrainedMeansExited(n: nat, run: seq<Action>, s: State)
    requires Reaches(n, run, s) && s.collector.Returned?
    requires forall a | OfGoroutine(a) :: !Enabled(s, a)
    ensures forall i | 0 <= i < |s.goroutines| :: s.goroutines[i].Sent? || s.goroutines[i].Stopped?
  {
    forall i | 0 <= i < |s.goroutines| ensures s.goroutines[i].Sent? || s.goroutines[i].Stopped? {
      if !s.goroutines[i].Sent? && !s.goroutines[i].Stopped? {
        ReachableInv(n, run, s);
        assert OfGoroutine(Probe(i, true)) && OfGoroutine(Send(i)) && OfGoroutine(SeeDone(i));
        UnfinishedCanAct(n, run, s, i, true);
      }
    }
  }
}
