/** The lock file that keeps speed tests of different processes apart. */
module SpeedtestLock {
  import opened Wrappers

  /** Seconds before a lock that nobody refreshes is reclaimed. */
  const STALE_TTL := 900

  // ------------------------------------------------------- one process at a time

  /** The store's files: when the lock was last touched, and the `running` flag of the status. */
  class SpeedtestStore {
    var lock: Option<int>
    var running: bool

    constructor ()
      ensures lock == None && !running
    {
      lock, running := None, false;
    }

    /** With no other process at work, the lock is won exactly when it is free or stale. */
    method Acquire(now: int) returns (ok: bool)
      modifies this`lock
      ensures ok <==> old(lock).None? || now - old(lock).value >= 900
      ensures lock == if ok then Some(now) else old(lock)
    {
      if lock == None {
        lock := Some(now);
        return true;
      }
      if now - lock.value < STALE_TTL {
        return false;
      }
      lock := None;
      lock := Some(now);
      ok := true;
    }

    method Release()
      modifies this`lock
      ensures lock == None
    {
      lock := None;
    }

    /** Writing the status refreshes the lock, but never creates one. */
    method WriteStatus(now: int, flag: bool)
      modifies this
      ensures running == flag
      ensures lock == if old(lock).Some? then Some(now) else None
    {
      running := flag;
      if lock.Some? {
        lock := Some(now);
      }
    }

    method IsRunning(now: int) returns (r: bool)
      ensures r <==> lock.Some? && now - lock.value <= 900 && running
    {
      if lock == None {
        return false;
      }
      if now - lock.value > STALE_TTL {
        return false;
      }
      r := running;
    }
  }

  // ------------------------------------------------------------ many processes

  /** Where a process is in `acquire`, or that it holds the lock. */
  datatype Phase =
    | Idle
    | Found    // the lock file existed
    | Stale    // its age was at least the limit
    | Cleared  // it has been removed
    | Holding

  datatype State = State(now: int, lock: Option<int>, phases: seq<Phase>)

  datatype Action =
    | Open(p: nat)
    | Stat(p: nat)
    | Unlink(p: nat)
    | Create(p: nat)
    | Refresh(p: nat)
    | Release(p: nat)
    | Crash(p: nat)
    | Tick(seconds: nat)

  predicate Enabled(s: State, a: Action) {
    match a
    case Open(p) => p < |s.phases| && s.phases[p] == Idle
    case Stat(p) => p < |s.phases| && s.phases[p] == Found
    case Unlink(p) => p < |s.phases| && s.phases[p] == Stale
    case Create(p) => p < |s.phases| && s.phases[p] == Cleared
    case Refresh(p) => p < |s.phases| && s.phases[p] == Holding
    case Release(p) => p < |s.phases| && s.phases[p] == Holding
    case Crash(p) => p < |s.phases|
    case Tick(_) => true
  }

  function At(s: State, p: nat, phase: Phase): State
    requires p < |s.phases|
  {
    s.(phases := s.phases[p := phase])
  }

  /** One system call, one clock tick or one crash; a crash leaves the file behind. */
  function Step(s: State, a: Action): (r: State)
    requires Enabled(s, a)
    ensures |r.phases| == |s.phases|
  {
    match a
    case Open(p) => if s.lock.None? then At(s, p, Holding).(lock := Some(s.now)) else At(s, p, Found)
    case Stat(p) =>
      if s.lock.None? || s.now - s.lock.value < STALE_TTL then At(s, p, Idle) else At(s, p, Stale)
    case Unlink(p) => if s.lock.None? then At(s, p, Idle) else At(s, p, Cleared).(lock := None)
    case Create(p) => if s.lock.None? then At(s, p, Holding).(lock := Some(s.now)) else At(s, p, Idle)
    case Refresh(p) => if s.lock.Some? then s.(lock := Some(s.now)) else s
    case Release(p) => At(s, p, Idle).(lock := None)
    case Crash(p) => At(s, p, Idle)
    case Tick(seconds) => s.(now := s.now + seconds)
  }

  ghost predicate Runs(s: State, actions: seq<Action>)
    decreases |actions|
  {
    actions == [] || (Enabled(s, actions[0]) && Runs(Step(s, actions[0]), actions[1..]))
  }

  ghost function After(s: State, actions: seq<Action>): State
    requires Runs(s, actions)
    decreases |actions|
  {
    if actions == [] then s else After(Step(s, actions[0]), actions[1..])
  }

  // ------------------------------------------------------------ mutual exclusion

  ghost predicate SomeHolder(s: State) {
    exists p :: 0 <= p < |s.phases| && s.phases[p] == Holding
  }

  ghost predicate Exclusive(s: State) {
    forall p, q :: 0 <= p < q < |s.phases| ==> !(s.phases[p] == Holding && s.phases[q] == Holding)
  }

  /** A fresh start: nobody is in `acquire`; a crashed run may have left a lock of any age. */
  ghost predicate Initial(s: State) {
    forall p :: 0 <= p < |s.phases| ==> s.phases[p] == Idle
  }

  /** No reclaim of the run removes the lock of a live holder. */
  ghost predicate SparesHolders(s: State, actions: seq<Action>)
    requires Runs(s, actions)
    decreases |actions|
  {
    actions == [] || (!(actions[0].Unlink? && SomeHolder(s)) && SparesHolders(Step(s, actions[0]), actions[1..]))
  }

  ghost predicate Guarded(s: State) {
    Exclusive(s) && (SomeHolder(s) ==> s.lock.Some?)
  }

  lemma StepStaysGuarded(s: State, a: Action)
    requires Guarded(s) && Enabled(s, a) && !(a.Unlink? && SomeHolder(s))
    ensures Guarded(Step(s, a))
  {
    var t := Step(s, a);
    if SomeHolder(t) {
      var p :| 0 <= p < |t.phases| && t.phases[p] == Holding;
      assert s.phases[p] == Holding ==> SomeHolder(s);
    }
  }

  lemma {:induction false} RunStaysGuarded(s: State, actions: seq<Action>)
    requires Guarded(s) && Runs(s, actions) && SparesHolders(s, actions)
    ensures Guarded(After(s, actions))
    decreases |actions|
  {
    if actions != [] {
      StepStaysGuarded(s, actions[0]);
      RunStaysGuarded(Step(s, actions[0]), actions[1..]);
    }
  }

  /** As long as no reclaim hits a live holder, at most one process holds the lock, in every run. */
  lemma SparingRunsExclude(s: State, actions: seq<Action>)
    requires Initial(s) && Runs(s, actions) && SparesHolders(s, actions)
    ensures Exclusive(After(s, actions))
    ensures SomeHolder(After(s, actions)) ==> After(s, actions).lock.Some?
  {
    RunStaysGuarded(s, actions);
  }

  /** And a reclaim that does hit a live holder ends with two: the condition is exact. */
  lemma ReclaimSafeIff(s: State, p: nat)
    requires Guarded(s) && Enabled(s, Unlink(p)) && s.lock.Some?
    ensures Runs(s, [Unlink(p), Create(p)])
    ensures Exclusive(After(s, [Unlink(p), Create(p)])) <==> !SomeHolder(s)
  {
    var cleared := Step(s, Unlink(p));
    assert [Unlink(p), Create(p)][1..] == [Create(p)] && [Create(p)][1..] == [];
    var end := Step(cleared, Create(p));
    assert After(cleared, [Create(p)]) == end;
    assert end.phases[p] == Holding;
    if SomeHolder(s) {
      var h :| 0 <= h < |s.phases| && s.phases[h] == Holding;
      assert end.phases[h] == Holding;
    } else {
      assert forall q :: 0 <= q < |s.phases| && q != p ==> end.phases[q] == s.phases[q] != Holding;
    }
  }

  // ------------------------------------------------------------------ discipline

  /** Time passes only as long as a live holder's lock stays fresh. */
  ghost predicate Timely(s: State, a: Action) {
    a.Tick? && SomeHolder(s) && s.lock.Some? ==> s.now + a.seconds - s.lock.value < 900
  }

  /** Nobody looks at the lock's age while another process is about to remove it. */
  ghost predicate Uninterrupted(s: State, a: Action) {
    a.Stat? ==> forall q :: 0 <= q < |s.phases| ==> s.phases[q] != Stale
  }

  ghost predicate Disciplined(s: State, actions: seq<Action>)
    requires Runs(s, actions)
    decreases |actions|
  {
    actions == []
    || (Timely(s, actions[0]) && Uninterrupted(s, actions[0]) && Disciplined(Step(s, actions[0]), actions[1..]))
  }

  ghost predicate OneReclaims(s: State) {
    forall p, q :: 0 <= p < q < |s.phases| ==> !(s.phases[p] == Stale && s.phases[q] == Stale)
  }

  /** Whoever is about to remove the lock is right about its age. */
  ghost predicate StaleIsStale(s: State) {
    (exists p :: 0 <= p < |s.phases| && s.phases[p] == Stale) ==> s.lock.Some? && s.now - s.lock.value >= STALE_TTL
  }

  ghost predicate HeldIsFresh(s: State) {
    SomeHolder(s) ==> s.lock.Some? && s.now - s.lock.value < STALE_TTL
  }

  ghost predicate Ordered(s: State) {
    Exclusive(s) && OneReclaims(s) && StaleIsStale(s) && HeldIsFresh(s)
  }

  lemma StepStaysFresh(s: State, a: Action)
    requires Ordered(s) && Enabled(s, a) && Timely(s, a) && Uninterrupted(s, a)
    ensures !(a.Unlink? && SomeHolder(s))
    ensures HeldIsFresh(Step(s, a)) && Exclusive(Step(s, a))
  {
    var t := Step(s, a);
    if a.Unlink? {
      assert s.phases[a.p] == Stale;
    }
    StepStaysGuarded(s, a);
    if SomeHolder(t) {
      var p :| 0 <= p < |t.phases| && t.phases[p] == Holding;
      assert s.phases[p] == Holding ==> SomeHolder(s);
    }
  }

  lemma StepStaysStale(s: State, a: Action)
    requires Ordered(s) && Enabled(s, a) && Timely(s, a) && Uninterrupted(s, a)
    ensures StaleIsStale(Step(s, a)) && OneReclaims(Step(s, a))
  {
    var t := Step(s, a);
    if p :| 0 <= p < |t.phases| && t.phases[p] == Stale {
      assert s.phases[p] == Stale || a == Stat(p);
    }
  }

  lemma {:induction false} DisciplineSpares(s: State, actions: seq<Action>)
    requires Ordered(s) && Runs(s, actions) && Disciplined(s, actions)
    ensures SparesHolders(s, actions)
    decreases |actions|
  {
    if actions != [] {
      StepStaysFresh(s, actions[0]);
      StepStaysStale(s, actions[0]);
      DisciplineSpares(Step(s, actions[0]), actions[1..]);
    }
  }

  /**
   Mutual exclusion: whatever the number of processes and wherever they crash, as long as
   live holders refresh in time and reclaims do not interleave, no two hold the lock.
   */
  lemma MutualExclusion(s: State, actions: seq<Action>)
    requires Initial(s) && Runs(s, actions) && Disciplined(s, actions)
    ensures Exclusive(After(s, actions))
    ensures SomeHolder(After(s, actions)) ==> After(s, actions).lock.Some?
  {
    DisciplineSpares(s, actions);
    SparingRunsExclude(s, actions);
  }

  lemma Prepend(s: State, a: Action, rest: seq<Action>)
    requires Enabled(s, a) && Runs(Step(s, a), rest)
    ensures Runs(s, [a] + rest) && After(s, [a] + rest) == After(Step(s, a), rest)
  {
    assert ([a] + rest)[1..] == rest;
  }

  /** Two processes that both judged the lock stale both win it, one after the other. */
  lemma BothReclaim(s: State) returns (a: seq<Action>)
    requires s.phases == [Stale, Stale] && s.lock.Some?
    ensures Runs(s, a) && (forall i :: 0 <= i < |a| ==> !a[i].Tick?) && !Exclusive(After(s, a))
  {
    var s1 := Step(s, Unlink(0));
    var s2 := Step(s1, Create(0));
    var s3 := Step(s2, Unlink(1));
    var end := Step(s3, Create(1));
    assert end.phases[0] == Holding && end.phases[1] == Holding;
    Prepend(s3, Create(1), []);
    Prepend(s2, Unlink(1), [Create(1)]);
    Prepend(s1, Create(0), [Unlink(1)] + [Create(1)]);
    a := [Create(0)] + ([Unlink(1)] + [Create(1)]);
    Prepend(s, Unlink(0), a);
    a := [Unlink(0)] + a;
  }

  /** Two reclaims that interleave win the same stale lock, though no time passes at all. */
  lemma InterleavedReclaimsCollide(s: State) returns (a: seq<Action>)
    requires |s.phases| == 2 && Initial(s) && s.lock.Some? && s.now - s.lock.value >= 900
    ensures Runs(s, a) && (forall i :: 0 <= i < |a| ==> !a[i].Tick?) && !Exclusive(After(s, a))
  {
    var s1 := Step(s, Open(0));
    var s2 := Step(s1, Open(1));
    var s3 := Step(s2, Stat(0));
    var s4 := Step(s3, Stat(1));
    assert s4.phases == [Stale, Stale];
    var rest := BothReclaim(s4);
    Prepend(s3, Stat(1), rest);
    Prepend(s2, Stat(0), [Stat(1)] + rest);
    Prepend(s1, Open(1), [Stat(0)] + ([Stat(1)] + rest));
    a := [Open(1)] + ([Stat(0)] + ([Stat(1)] + rest));
    Prepend(s, Open(0), a);
    a := [Open(0)] + a;
  }

  // ---------------------------------------------------------------- undisturbed

  /** A whole `acquire` while the other processes do nothing. */
  function Alone(s: State, p: nat): (r: State)
    requires Enabled(s, Open(p))
    ensures |r.phases| == |s.phases|
  {
    var tried := Step(s, Open(p));
    if tried.phases[p] == Holding then tried
    else
      var seen := Step(tried, Stat(p));
      if seen.phases[p] == Idle then seen else Step(Step(seen, Unlink(p)), Create(p))
  }

  /** Undisturbed, a process wins the lock if and only if it is free or its age has reached the limit. */
  lemma AloneWinsIff(s: State, p: nat)
    requires Enabled(s, Open(p))
    ensures Alone(s, p).phases[p] == Holding <==> s.lock.None? || s.now - s.lock.value >= 900
    ensures Alone(s, p).lock == if Alone(s, p).phases[p] == Holding then Some(s.now) else s.lock
    ensures forall q :: 0 <= q < |s.phases| && q != p ==> Alone(s, p).phases[q] == s.phases[q]
  {
  }

  /** Once its holder releases it, the lock is won by whoever asks next. */
  lemma ReleasedLockWins(s: State, h: nat, p: nat)
    requires Enabled(s, Release(h)) && p != h && Enabled(s, Open(p))
    ensures Enabled(Step(s, Release(h)), Open(p)) && Alone(Step(s, Release(h)), p).phases[p] == Holding
  {
    AloneWinsIff(Step(s, Release(h)), p);
  }

  /** The lock of a crashed holder wedges nobody: it is won as soon as its age reaches the limit, and not before. */
  lemma CrashedLockReclaimable(s: State, h: nat, seconds: nat, p: nat)
    requires h < |s.phases| && s.phases[h] == Holding && s.lock.Some? && Enabled(s, Open(p))
    ensures var later := Step(Step(s, Crash(h)), Tick(seconds));
      Enabled(later, Open(p))
      && (Alone(later, p).phases[p] == Holding <==> s.now + seconds - s.lock.value >= 900)
  {
    AloneWinsIff(Step(Step(s, Crash(h)), Tick(seconds)), p);
  }
}
